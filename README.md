# Critical-minerals data tools — the normalise-and-query layer in Dafny

This project models the deterministic core of four data tools for critical-mineral
statistics. It proves properties of each:

- **USGS Mineral Commodity Summaries client** (`usgs_client.py`):
  - header normalisation and keyword-based column inference, with required and optional roles;
  - the year and value cell parsers;
  - the reshape of wide `prod_YYYY` / `prod_est_YYYY` tables into long rows;
  - the choice of the data file in a catalogue item;
  - the substring filters and the sorted lists of commodities and countries;
  - three aggregations: the country ranking with shares, the yearly time series, and the per-country commodity profile;
  - the client object that loads and caches its table once.
- **USGS Mineral Resources Data System client** (`mrds_client.py`):
  - its own header normalisation and column inference, which fails hard when coordinates or commodity fields are missing;
  - country normalisation and the static alias table;
  - the two-phase country filter;
  - the commodity filter and the coordinate filter;
  - the capped per-site commodity list.
- **BGS World Mineral Statistics REST handlers** (`api.py`):
  - commodity categorisation by first-match keyword priority;
  - the rule that a country argument of at most three characters is an ISO code;
  - the ranking with shares;
  - the global and per-country time series with year-on-year change;
  - the country comparison;
  - the country profile.
- **UN Comtrade tools** (`server.py`):
  - the reporter, partner and commodity list filters;
  - the record cap and the critical-mineral key lookup;
  - the top-N trade summary;
  - the import/export trade profile.

Network, disk and service answers are inputs to the model:

- a loaded table is a `Tables.Frame`: column names plus positional rows of cells, where a cell is `Null` or `Text`;
- the client lists are sequences;
- the Comtrade client's trade queries are a function parameter.

The modules are:

- `Strings` (ASCII case folding, Python `strip`, `replace`, `split`, `in`);
- `Seqs`:
  - Python slices and `head`;
  - an insertion-ordered dictionary of sums (`Accumulate`, `GroupSum`);
  - the sorted-unique keys of `groupby`;
  - sorting, sums and shares;
- `Tables` (frames, and the `_find_column` both USGS clients share);
- `UsgsParse`, `UsgsColumns` and `UsgsQueries` for the MCS client;
- `Mrds`, `BgsApi` and `ComtradeServer`.

The code that changes state step by step is written as methods with loops, each proved equal to a specification function:

- the loops that build lists or dictionaries;
- the ranking loops;
- the year-on-year loops with their carried previous quantity;
- the alias loop with its `break`.

The two USGS clients are classes whose `LoadDataframe` fills the cached table fields once.

## Model

| member | source | states |
|---|---|---|
| Tables.FindColumnSpec | USGS_MCP/src/usgs_mcp/usgs_client.py:27-32 | `_find_column` yields the first column, in order, whose lowercased name contains every keyword; it yields nothing exactly when no column qualifies |
| Tables.FoundColumnNonEmpty | USGS_MCP/src/usgs_mcp/usgs_client.py:188-198 | a column found through a non-empty keyword is itself non-empty, so Python's `or` never passes over a found column |
| UsgsParse.NormalizeCol | USGS_MCP/src/usgs_mcp/usgs_client.py:23-24 | `_normalize_col` is the stripped name, character by character lower-cased with each space and `-` turned into `_`: same length as the stripped name, no upper-case letter, no space, no `-`, no leading or trailing whitespace |
| UsgsParse.NormalizeColIdempotent | USGS_MCP/src/usgs_mcp/usgs_client.py:23-24 | normalising a normalised name changes nothing |
| UsgsParse.ParseYear | USGS_MCP/src/usgs_mcp/usgs_client.py:35-38 | `_parse_year` finds nothing exactly when there is no run of four digits; otherwise it yields the value of the first such run, at most 9999 |
| UsgsParse.CleanValue | USGS_MCP/src/usgs_mcp/usgs_client.py:41-50 | the cleaned text holds only digits, `.`, `-` and the backslash the doubled escape keeps, and it keeps every digit, `-` and backslash of the input, in order and with multiplicity |
| UsgsParse.NumberRoundTrip | USGS_MCP/src/usgs_mcp/usgs_client.py:51 | reading back the decimal spelling of any natural number, with or without a minus sign, gives that number |
| UsgsParse.ParseValueOfNumeral | USGS_MCP/src/usgs_mcp/usgs_client.py:41-51 | `_parse_value` of a plain numeral is its value: the cleaning steps leave digits alone |
| UsgsParse.CleanThousands | USGS_MCP/src/usgs_mcp/usgs_client.py:43-50 | the cleaning drops the thousands comma of "1,234.5" |
| UsgsParse.ThousandsSeparator | USGS_MCP/src/usgs_mcp/usgs_client.py:41-51 | "1,234.5" parses as 1234.5 |
| UsgsParse.PlaceholdersUnparseable | USGS_MCP/src/usgs_mcp/usgs_client.py:41-51 | the em dash, the ellipsis and a missing cell ("nan") are unparseable |
| UsgsColumns.FindFirstSpec | USGS_MCP/src/usgs_mcp/usgs_client.py:188-198 | a chain of single-keyword lookups yields the first keyword's column that exists, and nothing exactly when no keyword finds one |
| UsgsColumns.OrChainIsFindFirst | USGS_MCP/src/usgs_mcp/usgs_client.py:188-198 | the source's `a or b or ...` chain over lookups equals that first-keyword search |
| UsgsColumns.Missing | USGS_MCP/src/usgs_mcp/usgs_client.py:200 | the missing list holds exactly the required roles no keyword resolves, without repeats |
| UsgsColumns.InferColumns | USGS_MCP/src/usgs_mcp/usgs_client.py:186-214 | `_infer_columns` fails exactly when commodity, country, year or value is unresolved, listing exactly those roles; otherwise each role holds its priority-order lookup, and unit and statistic may be absent |
| UsgsColumns.CommodityPrecedence | USGS_MCP/src/usgs_mcp/usgs_client.py:188 | a header containing "commodity" wins over any "mineral" header |
| UsgsColumns.CollapseUnderscores | USGS_MCP/src/usgs_mcp/usgs_client.py:156 | collapsing `_+` leaves no two adjacent underscores, keeps the first character, keeps every other character in order, and keeps an underscore exactly when the input has one |
| UsgsColumns.CollapseIdempotent | USGS_MCP/src/usgs_mcp/usgs_client.py:156 | collapsing twice is collapsing once |
| UsgsColumns.MatchProd | USGS_MCP/src/usgs_mcp/usgs_client.py:157 | a match of `prod(_est)?_?(\d{4})` starts with "prod" and carries a year of at most four digits |
| UsgsColumns.MatchProdSpec | USGS_MCP/src/usgs_mcp/usgs_client.py:157 | a header matches exactly when it is "prod", optionally "_est", optionally `_`, then four digits, and the match carries the year those digits spell |
| UsgsColumns.MatchProdEstimate | USGS_MCP/src/usgs_mcp/usgs_client.py:157-160 | the estimate group matches exactly when the name starts with "prod_est" |
| UsgsColumns.ProdColumns | USGS_MCP/src/usgs_mcp/usgs_client.py:154-163 | every collected production column is a header of the table that matches, with its year and statistic |
| UsgsColumns.ProdColumnsOrder | USGS_MCP/src/usgs_mcp/usgs_client.py:154-163 | every matching header is collected, once and in column order |
| UsgsColumns.ProdColumnsEmpty | USGS_MCP/src/usgs_mcp/usgs_client.py:165-166 | no production column is collected exactly when no header matches |
| UsgsColumns.CollectProdColumns | USGS_MCP/src/usgs_mcp/usgs_client.py:154-163 | the collecting loop yields the specified production columns |
| UsgsColumns.ReshapeWorldProduction | USGS_MCP/src/usgs_mcp/usgs_client.py:144-184 | the reshape loop yields the specified long table |
| UsgsColumns.ReshapedRows | USGS_MCP/src/usgs_mcp/usgs_client.py:168-183 | with the key columns present and some production column, there is one long row per (production column, input row) pair, carrying the input row's commodity cell (long column 0), country cell (column 1) and unit cell (column 4, missing without a unit column), the embedded year, the cell value and the statistic, under the six long column names |
| UsgsColumns.LongRow | USGS_MCP/src/usgs_mcp/usgs_client.py:169-181 | one long row: the commodity, country, value and unit cells of its input row (the unit missing without a unit column), the production column's year and its statistic, in the six long columns' order |
| UsgsColumns.ReshapedUnchanged | USGS_MCP/src/usgs_mcp/usgs_client.py:151-166 | without a commodity or country column, or without a production column, the table comes back unchanged |
| UsgsColumns.ProdStatistic | USGS_MCP/src/usgs_mcp/usgs_client.py:160-162 | the statistic is "Production (est)" exactly when the collapsed header starts with "prod_est", otherwise "Production" |
| UsgsColumns.ReshapedYearReadsBack | USGS_MCP/src/usgs_mcp/usgs_client.py:161-171 | a year from 1000 to 9999 written into a long row parses back through `_parse_year` to that year |
| UsgsColumns.FirstTruthy | USGS_MCP/src/usgs_mcp/usgs_client.py:81-82 | `f.get(a) or f.get(b) or ...` is the first key holding a non-empty value, and empty exactly when none does |
| UsgsColumns.Candidates | USGS_MCP/src/usgs_mcp/usgs_client.py:78-84 | the candidates are the entries with both a name and a URL, and every such entry is one |
| UsgsColumns.CollectCandidates | USGS_MCP/src/usgs_mcp/usgs_client.py:78-84 | the loop over the file entries yields exactly the candidates |
| UsgsColumns.FirstWhere | USGS_MCP/src/usgs_mcp/usgs_client.py:86-94 | each scan over the candidates stops at the first one that qualifies, and finds none exactly when no candidate qualifies |
| UsgsColumns.PickDataFile | USGS_MCP/src/usgs_mcp/usgs_client.py:77-99 | `_pick_data_file` returns the first candidate whose name holds "Commodities_Data" and ends in ".csv"; when there is none, the first ".csv"; and it fails exactly when no candidate is a CSV |
| UsgsQueries.Filtered | USGS_MCP/src/usgs_mcp/usgs_client.py:216-232 | `_filtered` keeps exactly the rows each given filter matches ignoring case; the statistic filter is skipped when there is no statistic column |
| UsgsQueries.FilteredOrder | USGS_MCP/src/usgs_mcp/usgs_client.py:216-232 | the mask keeps rows in table order and multiplicity: one row survives exactly when every filter keeps it, and two stacked tables filter to their filtered parts, stacked |
| UsgsQueries.FilteredNothing | USGS_MCP/src/usgs_mcp/usgs_client.py:221-232 | with no filter that applies, the whole table comes back |
| UsgsQueries.TextsSpec | USGS_MCP/src/usgs_mcp/usgs_client.py:238 | `dropna().astype(str)` yields exactly the texts of the non-missing cells |
| UsgsQueries.DistinctValues | USGS_MCP/src/usgs_mcp/usgs_client.py:234-244 | the commodity and country lists are strictly sorted, free of duplicates, and hold exactly the non-missing values of the column |
| UsgsQueries.ParsedSpec | USGS_MCP/src/usgs_mcp/usgs_client.py:267-269 | after parsing and `dropna`, exactly the rows whose year and value both parse survive, with those numbers |
| UsgsQueries.Units | USGS_MCP/src/usgs_mcp/usgs_client.py:331-333 | the units are absent exactly when there is no unit column or no unit text; otherwise they are the most frequent unit text, the smallest among ties |
| UsgsQueries.MaxYear | USGS_MCP/src/usgs_mcp/usgs_client.py:285-296 | the default year is a year of some row and no row's year exceeds it |
| UsgsQueries.GroupMember | USGS_MCP/src/usgs_mcp/usgs_client.py:308 | each group of `groupby(...).sum()` is a key of the input holding the sum of its values |
| UsgsQueries.RankedGroupsSpec | USGS_MCP/src/usgs_mcp/usgs_client.py:308-316 | the ranked groups are exactly the non-aggregate countries of the input, each once, each holding its sum, in non-increasing order |
| UsgsQueries.RankCountries | USGS_MCP/src/usgs_mcp/usgs_client.py:246-342 | the ranking loop, numbering rows by `len(rankings)+1`, yields the specified ranking |
| UsgsQueries.NumberRankings | USGS_MCP/src/usgs_mcp/usgs_client.py:318-329 | the loop over the top groups numbers each row by the rows already emitted plus one and takes its share against the total |
| UsgsQueries.RankingOrder | USGS_MCP/src/usgs_mcp/usgs_client.py:316-329 | at most `top_n` rows, ranked 1, 2, ... with no gap, quantities non-increasing, no "world total" or "other countries" row and no country twice; `top_n` rows or every non-aggregate country of the year, and no country left out has a larger sum than a listed one |
| UsgsQueries.RankingShares | USGS_MCP/src/usgs_mcp/usgs_client.py:308-329 | every ranked country is a Production row's country of the chosen year, with the sum of its values, and its share is taken against the total of all non-aggregate countries of that year (0 when that total is 0) |
| UsgsQueries.RankingSharesSumTo100 | USGS_MCP/src/usgs_mcp/usgs_client.py:318-327 | when every group fits in `top_n` and the total is not 0, the shares add up to 100 |
| UsgsQueries.RankingEmpty | USGS_MCP/src/usgs_mcp/usgs_client.py:257-265 | an empty selection ranks nothing, totals 0 and echoes the requested year |
| UsgsQueries.RankingDefaultYear | USGS_MCP/src/usgs_mcp/usgs_client.py:285-297 | without a requested year, any parsed Production row makes the ranking's year the latest parsed year, which is some row's year and no row's year exceeds |
| UsgsQueries.TimeSeriesSpec | USGS_MCP/src/usgs_mcp/usgs_client.py:354-359 | one point per distinct parsed year, years strictly ascending, each holding the sum of that year's values |
| UsgsQueries.CountryProfileSpec | USGS_MCP/src/usgs_mcp/usgs_client.py:384-417 | with no parsed row, the given year (or 0) and no commodities; otherwise the requested or latest year and that year's largest per-commodity sums, largest first, each commodity once with its sum and the year's units: `limit` of them or every commodity, none left out outweighing a kept one |
| ComtradeServer.TopReportersTies | UNComtrade_MCP/src/uncomtrade_mcp/server.py:326-336 | the reporters are totalled in order of first appearance, and among reporters of equal total the listed ones are the first of them in that order |
| UsgsQueries.TopCommoditiesSpec | USGS_MCP/src/usgs_mcp/usgs_client.py:399-409 | the year's commodities summed, largest first, each once with its sum: `limit` of them or every commodity, none left out outweighing a kept one |
| UsgsQueries.McsClient.constructor | USGS_MCP/src/usgs_mcp/usgs_client.py:65-68 | a new client has no cached table and no column map |
| UsgsQueries.McsClient.LoadDataframe | USGS_MCP/src/usgs_mcp/usgs_client.py:125-142 | a cached table comes back untouched; otherwise the headers are normalised, a wide table is reshaped, and the table is cached before the column inference runs |
| UsgsQueries.McsClient.Loaded | USGS_MCP/src/usgs_mcp/usgs_client.py:216-219 | a query runs on the cached table and column map: it fails when the inference failed or left no column map, and succeeds on a loaded client or one whose inference succeeds |
| UsgsQueries.McsClient.ListCommodities | USGS_MCP/src/usgs_mcp/usgs_client.py:234-238 | a cached table and column map are left as they are; otherwise the prepared source table is cached, with the column map inferred from it unless one is already set; it succeeds when a cached table has a column map or the fresh table's columns can be inferred, and then returns the distinct commodity values of that table |
| UsgsQueries.McsClient.ListCountries | USGS_MCP/src/usgs_mcp/usgs_client.py:240-244 | a cached table and column map are left as they are; otherwise the prepared source table is cached, with the column map inferred from it unless one is already set; it succeeds when a cached table has a column map or the fresh table's columns can be inferred, and then returns the distinct country values of that table |
| UsgsQueries.McsClient.GetCountryRanking | USGS_MCP/src/usgs_mcp/usgs_client.py:246-342 | a cached table and column map are left as they are; otherwise the prepared source table is cached, with the column map inferred from it unless one is already set; it succeeds when a cached table has a column map or the fresh table's columns can be inferred, and then returns the specified ranking of that table |
| UsgsQueries.McsClient.GetTimeSeries | USGS_MCP/src/usgs_mcp/usgs_client.py:344-371 | a cached table and column map are left as they are; otherwise the prepared source table is cached, with the column map inferred from it unless one is already set; it succeeds when a cached table has a column map or the fresh table's columns can be inferred, and then returns the specified time series of that table |
| UsgsQueries.McsClient.GetCountryProfile | USGS_MCP/src/usgs_mcp/usgs_client.py:373-417 | a cached table and column map are left as they are; otherwise the prepared source table is cached, with the column map inferred from it unless one is already set; it succeeds when a cached table has a column map or the fresh table's columns can be inferred, and then returns the specified country profile of that table |
| Mrds.Normalize | USGS_MCP/src/usgs_mcp/mrds_client.py:22-30 | `_normalize` output has no space, `-`, `/` or upper-case letter, and keeps the characters other than `_` of the stripped, lower-cased name in order |
| Mrds.NormalizeSinglePass | USGS_MCP/src/usgs_mcp/mrds_client.py:29 | the `__` replacement is a single pass: "a - b" becomes "a__b" |
| Mrds.CommodityFields | USGS_MCP/src/usgs_mcp/mrds_client.py:107-109 | exactly the columns holding "commod", in column order; failing that, exactly the columns holding "mineral" or "resource", in column order |
| Mrds.InferColumns | USGS_MCP/src/usgs_mcp/mrds_client.py:92-120 | the inference fails on missing coordinates exactly when latitude or longitude is unresolved, and on missing commodity fields exactly when those are empty; otherwise it yields the lookups |
| Mrds.LongFallbackUnused | USGS_MCP/src/usgs_mcp/mrds_client.py:95-97 | the third longitude fallback ("long") never changes the answer, since every name holding "long" holds "lon" |
| Mrds.NormalizeCountry | USGS_MCP/src/usgs_mcp/mrds_client.py:190-191 | the normalised name has no comma and no leading or trailing whitespace, and keeps every other non-space character of the argument, in order; a comma-free, stripped name without double spaces comes back unchanged |
| Mrds.SpacePassRun | USGS_MCP/src/usgs_mcp/mrds_client.py:191 | the `replace("  ", " ")` pass turns a run of n spaces into (n + 1) / 2 spaces: it halves a run, rounding up, and does not collapse it to one |
| Mrds.SpacePassSplit | USGS_MCP/src/usgs_mcp/mrds_client.py:191 | the pass never reaches across a character other than a space, so a text is rewritten run by run |
| Mrds.SpacePassNoop | USGS_MCP/src/usgs_mcp/mrds_client.py:191 | a text without two adjacent spaces goes through the pass unchanged |
| Mrds.CountryAliases | USGS_MCP/src/usgs_mcp/mrds_client.py:194-208 | the aliases of a known lowercased name are its non-empty table entry; an unknown name has none |
| Mrds.AliasesIgnoreCase | USGS_MCP/src/usgs_mcp/mrds_client.py:195 | the alias lookup ignores case |
| Mrds.FirstAliasMatchSpec | USGS_MCP/src/usgs_mcp/mrds_client.py:139-146 | the alias loop ends with the rows of the first alias that matches any row, and with none exactly when no alias does |
| Mrds.CountryFallback | USGS_MCP/src/usgs_mcp/mrds_client.py:133-146 | the rows holding the normalised name are kept when there are any, and the aliases are consulted only when there are none |
| Mrds.CountryStep | USGS_MCP/src/usgs_mcp/mrds_client.py:133-146 | the country step, with its alias loop and `break`, yields the specified rows |
| Mrds.LocatedSpec | USGS_MCP/src/usgs_mcp/mrds_client.py:159-162 | exactly the rows whose two coordinates are numbers survive, with those numbers |
| Mrds.Pieces | USGS_MCP/src/usgs_mcp/mrds_client.py:170-174 | every listed piece is a non-empty, stripped part of the split, and every part that strips to something non-empty is listed |
| Mrds.PiecesOrder | USGS_MCP/src/usgs_mcp/mrds_client.py:170-174 | the pieces of one part are its stripped text when non-empty, and the pieces of two runs of parts are the two runs' pieces in order |
| Mrds.CommodityListSpec | USGS_MCP/src/usgs_mcp/mrds_client.py:170-182 | a result lists the first ten of the stripped non-empty pieces in order, or all of them when fewer, each free of `,` and `;` |
| Mrds.SiteOf | USGS_MCP/src/usgs_mcp/mrds_client.py:176-185 | a result is tagged "mrds", has a non-empty name and the coordinates of its row |
| Mrds.SiteSpec | USGS_MCP/src/usgs_mcp/mrds_client.py:166-185 | the name is the site-name cell's text when it is non-empty and "Unknown" otherwise; the country is the country cell's text exactly when there is a country column; the commodities are the split blob of the row |
| Mrds.SearchBounded | USGS_MCP/src/usgs_mcp/mrds_client.py:164-186 | `search` returns the first `limit` selected rows (all when fewer), one site each and in order, each tagged "mrds", named, with at most ten clean commodities |
| Mrds.SelectedSpec | USGS_MCP/src/usgs_mcp/mrds_client.py:133-162 | a row is selected exactly when it survives the country step, its commodity fields hold the term, and both coordinates are numbers; the selected rows are exactly the table's rows passing all three steps, in table order and with their multiplicity, so `head(limit)` takes the first of them |
| Mrds.SelectedOrder | USGS_MCP/src/usgs_mcp/mrds_client.py:133-165 | the selected rows are the table's rows that pass the country, commodity and coordinate tests, in table order |
| Mrds.LocatedRows | USGS_MCP/src/usgs_mcp/mrds_client.py:158-161 | the coordinate step keeps exactly the rows with two numeric coordinates, in order, one hit each |
| Mrds.SearchComplete | USGS_MCP/src/usgs_mcp/mrds_client.py:133-186 | when the limit cuts nothing, every row that survives the country and commodity filters and has numeric coordinates appears as a result |
| Mrds.SearchFromTable | USGS_MCP/src/usgs_mcp/mrds_client.py:133-162 | every result comes from a row of the table whose coordinate cells parse to its coordinates, whose joined commodity fields contain the lowercased term, and whose country cell holds the normalised name, or else the first alias that matches any row |
| Mrds.CountryRowsHeld | USGS_MCP/src/usgs_mcp/mrds_client.py:133-146 | every row the country step keeps holds the normalised name, or else the first alias that matches some row, no earlier alias matching any |
| Mrds.CountryRowsOrder | USGS_MCP/src/usgs_mcp/mrds_client.py:133-146 | the country step keeps the table's rows that pass its test (no country or no country column: every row), in table order |
| Mrds.Query | USGS_MCP/src/usgs_mcp/mrds_client.py:132-187 | the result loop yields the specified results |
| Mrds.BuildSites | USGS_MCP/src/usgs_mcp/mrds_client.py:164-185 | the result loop appends one site per kept row, in row order |
| Mrds.MrdsClient.constructor | USGS_MCP/src/usgs_mcp/mrds_client.py:51-53 | a new client has no cached table and no columns |
| Mrds.MrdsClient.LoadDataframe | USGS_MCP/src/usgs_mcp/mrds_client.py:80-90 | a cached table comes back untouched; otherwise the normalised table is cached before the column inference runs |
| Mrds.MrdsClient.Search | USGS_MCP/src/usgs_mcp/mrds_client.py:122-187 | a query leaves a cached table unchanged; it fails when the inference failed or left no columns, and otherwise succeeds with the specified results |
| BgsApi.Rank | BGS_MCP/src/bgs_mcp/api.py:287-296 | each category has its place in the order the handler creates them |
| BgsApi.CategoryOf | BGS_MCP/src/bgs_mcp/api.py:298-340 | a commodity is filed under the first category, in priority order, whose keywords it mentions, and under "other" when it mentions none |
| BgsApi.InCategory | BGS_MCP/src/bgs_mcp/api.py:298-340 | a category's list holds exactly the commodities filed under it |
| BgsApi.InCategoryOrder | BGS_MCP/src/bgs_mcp/api.py:298-340 | a category's list is the input's commodities filed under it, in input order and multiplicity |
| BgsApi.Categorize | BGS_MCP/src/bgs_mcp/api.py:298-343 | the loop appending each commodity to its category's list, then dropping the empty lists, yields the specified categories |
| BgsApi.CategorizedPartition | BGS_MCP/src/bgs_mcp/api.py:298-343 | no list is empty, the categories come in creation order and do not repeat, each list is the input's commodities filed under it in input order, and every commodity is in the list of its own category and in no other |
| BgsApi.ListCommodities | BGS_MCP/src/bgs_mcp/api.py:285-349 | the total is the number of commodities, and the categories are present exactly when asked for |
| BgsApi.CountryArgSpec | BGS_MCP/src/bgs_mcp/api.py:394-398 | a non-empty argument of at most three characters goes as the ISO code with no name, anything else as the name with no code, passed on unchanged; the profile's path-parameter rule agrees on every non-empty argument |
| BgsApi.TruthyTotalIsSum | BGS_MCP/src/bgs_mcp/api.py:463 | summing only the truthy quantities gives the sum of all quantities |
| BgsApi.GetCommodityRanking | BGS_MCP/src/bgs_mcp/api.py:458-485 | the `enumerate` loop yields the specified ranking |
| BgsApi.RankingSpec | BGS_MCP/src/bgs_mcp/api.py:458-484 | 404 exactly for no rows; otherwise the rows keep the client's order with ranks 1, 2, ..., country, ISO code and quantity; year and units come from the first row; the total is the sum of the quantities; each share is the row's percentage of a positive total (so they add up to 100), all 0 otherwise |
| BgsApi.YearEntriesSpec | BGS_MCP/src/bgs_mcp/api.py:525-529 | a year is summed exactly when some record with a truthy year and a quantity has it |
| BgsApi.YearTotals | BGS_MCP/src/bgs_mcp/api.py:523-530 | the dictionary loop yields the year totals and the units of the last counted record |
| BgsApi.YearPoints | BGS_MCP/src/bgs_mcp/api.py:532-540 | the point loop, carrying the previous quantity, yields one point per year with its change |
| BgsApi.ChangeFrom | BGS_MCP/src/bgs_mcp/api.py:536-538 | the change is present exactly when the previous quantity is present and positive, and is then its percentage difference |
| BgsApi.GlobalSeries | BGS_MCP/src/bgs_mcp/api.py:522-548 | the global branch yields the specified points and units |
| BgsApi.WithYoyChained | BGS_MCP/src/bgs_mcp/api.py:536-540 | the first point has no change; a later one has a change exactly when the previous quantity is positive, and that change is the percentage difference |
| BgsApi.GlobalSeriesSpec | BGS_MCP/src/bgs_mcp/api.py:522-540 | one point per counted year, years strictly ascending, each the sum of that year's quantities, with chained changes |
| BgsApi.CountrySeries | BGS_MCP/src/bgs_mcp/api.py:553-563 | the per-country loop, carrying the previously emitted quantity, yields the specified points |
| BgsApi.CountrySeriesSpec | BGS_MCP/src/bgs_mcp/api.py:553-563 | the points are exactly the counted records in input order, each compared with the record emitted before it |
| BgsApi.GetTimeSeries | BGS_MCP/src/bgs_mcp/api.py:518-571 | 404 exactly for no records; without a country the global branch, with one the per-country branch, with the first record's country and units |
| BgsApi.SplitCountries | BGS_MCP/src/bgs_mcp/api.py:590 | one country per comma plus one, the i-th being the i-th comma-separated part stripped, each free of commas |
| Strings.SplitParts | BGS_MCP/src/bgs_mcp/api.py:590 | `split(",")` gives one part more than there are commas |
| BgsApi.FirstUnitsSpec | BGS_MCP/src/bgs_mcp/api.py:603-608 | the units are those of the first country, in dictionary order, whose first point has units, and absent exactly when none has |
| BgsApi.CompareCountries | BGS_MCP/src/bgs_mcp/api.py:600-615 | 404 exactly for an empty comparison; otherwise the comparison with the units picked by the loop and its `break` |
| BgsApi.AvailableYears | BGS_MCP/src/bgs_mcp/api.py:650 | the available years are exactly the non-zero years of the records |
| BgsApi.ProfileYearSpec | BGS_MCP/src/bgs_mcp/api.py:650-653 | the profiled year is the requested one; without one it is present exactly when some record has a non-zero year, and is then the latest such year |
| BgsApi.CommodityEntriesKeys | BGS_MCP/src/bgs_mcp/api.py:656-666 | a commodity is summed exactly when a record of the profiled year with a quantity names it |
| BgsApi.UnitsFirstSeenSpec | BGS_MCP/src/bgs_mcp/api.py:663-665 | a commodity's units are those of its first summed record |
| BgsApi.CommodityTotals | BGS_MCP/src/bgs_mcp/api.py:656-666 | the dictionary loop yields each commodity's total and the units stored when it was first seen |
| BgsApi.ReadRecord | BGS_MCP/src/bgs_mcp/api.py:657-666 | one step of the dictionary loop keeps the totals equal to the per-commodity sums of the records read so far, with a stored unit for exactly the summed commodities, each the first-seen one |
| BgsApi.ItemsOf | BGS_MCP/src/bgs_mcp/api.py:668-673 | the dictionary values become the profile entries, one per commodity total, with its first-seen units |
| BgsApi.GetCountryProfile | BGS_MCP/src/bgs_mcp/api.py:646-680 | the handler yields the specified profile |
| BgsApi.ProfileCommodities | BGS_MCP/src/bgs_mcp/api.py:656-673 | the commodities come largest first, each summed commodity exactly once, each with its sum and its first-seen units |
| BgsApi.ProfileTies | BGS_MCP/src/bgs_mcp/api.py:656-673 | the commodities are totalled in order of first appearance, and the stable `sorted(…, reverse=True)` keeps that order among commodities of equal quantity |
| BgsApi.ProfileSpec | BGS_MCP/src/bgs_mcp/api.py:646-680 | 404 exactly for no records; otherwise the first record's country, the profiled year and the sorted commodities |
| BgsApi.ProfileWithoutYears | BGS_MCP/src/bgs_mcp/api.py:650-660 | with no year requested and none available, only records whose year is missing are summed |
| ComtradeServer.ListReferencesSpec | UNComtrade_MCP/src/uncomtrade_mcp/server.py:93-99 | the first `limit` of the input entries, in order, whose lowercased text contains the lowercased term (all of them when fewer); an entry is kept exactly when it matches (`list_partners`, lines 122-128, is the same code) |
| ComtradeServer.ListCommoditiesSpec | UNComtrade_MCP/src/uncomtrade_mcp/server.py:157-171 | the first `limit` of the input entries, in order, that have the requested code length when that is 2, 4 or 6 and match the term in their text ignoring case or in their code (all of them when fewer) |
| ComtradeServer.OtherLevelsIgnored | UNComtrade_MCP/src/uncomtrade_mcp/server.py:157-161 | any other level does not filter by code length |
| ComtradeServer.CapRecords | UNComtrade_MCP/src/uncomtrade_mcp/server.py:214 | the cap is `min(max_records, 500)`: at most 500 and at most the request, and one of the two (line 265 is the same) |
| ComtradeServer.MineralKey | UNComtrade_MCP/src/uncomtrade_mcp/server.py:270 | the key is the argument character by character, lower-cased with each space turned into `_` |
| ComtradeServer.CriticalMineralQuery | UNComtrade_MCP/src/uncomtrade_mcp/server.py:265-276 | the capped record count; the table's codes and display name for a known key; no codes and the argument itself for an unknown one |
| ComtradeServer.RareEarthLookup | UNComtrade_MCP/src/uncomtrade_mcp/server.py:270-275 | "Rare Earth" finds the key "rare_earth", its code "2846" and its display name |
| ComtradeServer.ReporterTotals | UNComtrade_MCP/src/uncomtrade_mcp/server.py:322-331 | the loop yields the per-reporter sums of the truthy values, in first-seen order, and the first such record's commodity |
| ComtradeServer.NumberRows | UNComtrade_MCP/src/uncomtrade_mcp/server.py:346-347 | the row loop yields the rows numbered from 1 with their shares |
| ComtradeServer.CommodityTradeSummary | UNComtrade_MCP/src/uncomtrade_mcp/server.py:318-350 | the handler yields the specified summary |
| ComtradeServer.TopReportersSpec | UNComtrade_MCP/src/uncomtrade_mcp/server.py:322-336 | at most `top_n` reporters, largest first, each once with the sum of its truthy values: `top_n` of them or every reporter, none left out outweighing a kept one |
| ComtradeServer.SummaryRowsSpec | UNComtrade_MCP/src/uncomtrade_mcp/server.py:338-347 | the rows are ranked from 1, one per reporter in order, and each share is the row's percentage of a positive total shown (so they add up to 100), all 0 otherwise |
| ComtradeServer.SummarySpec | UNComtrade_MCP/src/uncomtrade_mcp/server.py:318-350 | for records, a table ranked 1, 2, ..., values non-increasing, each a distinct reporter's sum: `top_n` rows or every reporter, none left out outweighing a shown one; the total is that of the rows shown and each share the row's percentage of a positive total, all 0 otherwise |
| ComtradeServer.SummaryNoData | UNComtrade_MCP/src/uncomtrade_mcp/server.py:318-319 | no records gives the "no data" message, not a table |
| ComtradeServer.CountryTradeProfile | UNComtrade_MCP/src/uncomtrade_mcp/server.py:381-414 | the loop over the minerals yields the specified profile |
| ComtradeServer.PositiveTotalsSpec | UNComtrade_MCP/src/uncomtrade_mcp/server.py:381-410 | a mineral is listed under a flow exactly when its total there is positive, with that total, so the flow's total is never negative |
| ComtradeServer.MineralNamesDistinct | UNComtrade_MCP/src/uncomtrade_mcp/server.py:406-410 | the display names are distinct, so the profile's dictionaries never overwrite an entry |
| ComtradeServer.ProfileSpec | UNComtrade_MCP/src/uncomtrade_mcp/server.py:407-414 | only positive totals are listed; the totals are the sums of the listed amounts; the balance is exports minus imports; any other commodity type lists nothing and balances to 0 |

## Left out

- Network, disk and archive I/O are not modelled. This covers the catalogue request, the CSV download and its cache directory, the MRDS zip and its extraction, and `read_csv` with its encoding fallback. A loaded table is the `source` frame a client is built with.
- Cells are kept as text: `read_csv`'s type inference is not modelled. A cell is the text `astype(str)` would give, and a missing cell reads as "nan".
- Duplicate column names are not modelled: a lookup reads the first column with the name.
- The LLM configuration and calls, FastAPI/MCP wiring, the pydantic response models and their validation, and the OpenAI function listings are declarative wiring or remote calls.
- The BGS client (`search_production`, `get_commodity_by_country`, `get_time_series`, `compare_countries`) is not part of this model. Its answers are inputs to the handlers.
- The UN Comtrade client is not part of this model either. Its reference lists and trade records are inputs, and its trade queries are a function parameter. The `ValueError` path of `get_critical_mineral_trade` depends on that client and is not modelled.
- Case folding covers ASCII letters only. Python's full Unicode `lower()` is not modelled.
- UsgsParse.CleanValue: states that every digit, minus sign and backslash of the input is kept, in order, and that nothing outside the kept class remains. Where the dots end up is not stated: it follows the marker removal (`..` and the ellipsis) in the function itself.
- UsgsColumns.CollapseUnderscores: states the non-underscore characters in order, the first character, that an underscore stays exactly when there was one, and that no two underscores touch. The exact position of each surviving underscore is not stated.
- Mrds.Normalize: states the alphabet and the non-underscore characters in order. Where the underscores end up after the single `__` replacement pass is not stated.
- The USGS queries leave the cached table as it was. In the source, `_filtered` hands back the cached frame itself when no filter applies (usgs_client.py:221, 232), and the ranking, time-series and profile queries then write the parsed year and value columns into it (usgs_client.py:267-268, 354-355, 384-385). A later query re-parses those numbers from their float text. The model does not capture that aliasing.
- Digit classes: `\d` in `_parse_year` and in the production-column pattern is modelled as the ASCII digits. Python's `\d` also matches other Unicode decimal digits.
- Regular-expression matching is modelled as plain substring search. This applies to the `str.contains` calls that run in regex mode (the country and statistic filters of the MCS client, the MRDS commodity filter).
- `pd.to_numeric` is modelled on the cleaned characters only: an optional minus, digits and at most one dot. Exponents, `inf` and surrounding spaces in MRDS coordinates are not modelled.
- Floating point and `round(.., 2)` are not modelled. Quantities, shares and changes are exact reals, and every share or change is stated before rounding.
- Tie order in the USGS queries: `sort_values(ascending=False)` uses pandas' default sort, which is not stable. UsgsQueries.RankedGroupsSpec, RankingOrder and TopCommoditiesSpec therefore state no order among equal values, although the model's own descending sort keeps input order. The Python `sorted(…, reverse=True)` calls in the BGS profile and the trade summary are stable; BgsApi.ProfileTies and ComtradeServer.TopReportersTies state their tie order.
- The text of error messages and the markdown layout of the trade summary are not modelled. The summary is modelled as its title, rows and total.
- BgsApi.RankingSpec: a missing quantity in the client's rows is not modelled. A ranked quantity is always a number, as the response model requires.
- BgsApi.ProfileWithoutYears: when no year is requested and no record has a non-zero year, the modelled response carries no year. Whether the response model accepts that is not modelled.
- UsgsQueries.RankingSharesSumTo100: states 100 only when every group fits in `top_n`. With more groups, the shares are taken against the total of all groups and need not add up to 100.
- Mrds.LongFallbackUnused: the source's third longitude fallback is modelled and shown never to matter, rather than removed.
