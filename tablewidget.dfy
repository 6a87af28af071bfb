/**
 * The stock table widget: turning the widget's comma-separated symbol
 * setting into the list of stocks to show, splitting the settled quote
 * requests into table rows and failures, and the search box filter.
 */
module TableWidget {
  import opened Wrappers
  import opened Text
  import opened Seqs

  datatype StockMeta = StockMeta(symbol: string, company: string)

  /** The quote fields the table reads from a fulfilled request. */
  datatype StockQuote = StockQuote(symbol: string, price: real, changePercent: real)

  datatype Row = Row(symbol: string, company: string, price: real, changePercent: real)

  /** `DEFAULT_STOCKS`. */
  const DefaultStocks: seq<StockMeta> := [
    StockMeta("AAPL", "Apple"), StockMeta("MSFT", "Microsoft"), StockMeta("GOOGL", "Alphabet"),
    StockMeta("AMZN", "Amazon"), StockMeta("META", "Meta"), StockMeta("TSLA", "Tesla"),
    StockMeta("NVDA", "NVIDIA"), StockMeta("NFLX", "Netflix"), StockMeta("INTC", "Intel"),
    StockMeta("AMD", "AMD")]

  /** `DEFAULT_STOCKS.slice(0, 8)`. */
  const Fallback: seq<StockMeta> := DefaultStocks[..8]

  const MaxSymbols := 10

  function Symbols(ms: seq<StockMeta>): (r: seq<string>)
    ensures |r| == |ms| && forall i :: 0 <= i < |ms| ==> r[i] == ms[i].symbol
  {
    seq(|ms|, i requires 0 <= i < |ms| => ms[i].symbol)
  }

  /**
   * `lookup.get(symbol)` on the map built from `stocks`: a later entry
   * overwrites an earlier one with the same symbol, so this is the company of
   * the last entry with that symbol.
   */
  function LookupCompany(stocks: seq<StockMeta>, symbol: string): (r: Option<string>)
    ensures r.None? <==> forall i :: 0 <= i < |stocks| ==> stocks[i].symbol != symbol
    ensures r.Some? ==> exists i :: 0 <= i < |stocks| && stocks[i] == StockMeta(symbol, r.value)
                           && forall j :: i < j < |stocks| ==> stocks[j].symbol != symbol
  {
    if stocks == [] then None
    else if stocks[|stocks| - 1].symbol == symbol then Some(stocks[|stocks| - 1].company)
    else LookupCompany(stocks[..|stocks| - 1], symbol)
  }

  /** `lookup.get(symbol) || symbol`: the default list's company name, or the symbol itself. */
  function CompanyOf(symbol: string): string {
    match LookupCompany(DefaultStocks, symbol)
    case Some(c) => if c != [] then c else symbol
    case None => symbol
  }

  /** The default symbols are upper-case and pairwise different, and every default company is named. */
  lemma DefaultStocksWellFormed()
    ensures forall i :: 0 <= i < |DefaultStocks| ==> DefaultStocks[i].symbol != [] && NoLower(DefaultStocks[i].symbol)
    ensures forall i :: 0 <= i < |DefaultStocks| ==> DefaultStocks[i].company != []
    ensures Distinct(Symbols(DefaultStocks))
  {
    var syms := Symbols(DefaultStocks);
    assert syms == ["AAPL", "MSFT", "GOOGL", "AMZN", "META", "TSLA", "NVDA", "NFLX", "INTC", "AMD"];
    forall i, j | 0 <= i < j < |syms|
      ensures syms[i] != syms[j]
    {
      assert syms[i][..2] != syms[j][..2] || syms[i][2..] != syms[j][2..];
    }
  }

  /** In a list with distinct symbols, looking up an entry's symbol finds that entry's company. */
  lemma {:induction false} LookupFindsEntry(stocks: seq<StockMeta>, i: nat)
    requires Distinct(Symbols(stocks)) && i < |stocks|
    ensures LookupCompany(stocks, stocks[i].symbol) == Some(stocks[i].company)
  {
    if i > 0 {
      assert Symbols(stocks[1..]) == Symbols(stocks)[1..];
      assert stocks[0].symbol == Symbols(stocks)[0] != Symbols(stocks)[i] == stocks[i].symbol;
      LookupFindsEntry(stocks[1..], i - 1);
    }
  }

  /** Each default symbol is shown with its default company, and any other symbol stands for itself. */
  lemma CompanyOfFacts(symbol: string)
    ensures forall i :: 0 <= i < |DefaultStocks| ==> CompanyOf(DefaultStocks[i].symbol) == DefaultStocks[i].company
    ensures (forall i :: 0 <= i < |DefaultStocks| ==> DefaultStocks[i].symbol != symbol) ==> CompanyOf(symbol) == symbol
  {
    DefaultStocksWellFormed();
    forall i | 0 <= i < |DefaultStocks|
      ensures CompanyOf(DefaultStocks[i].symbol) == DefaultStocks[i].company
    {
      LookupFindsEntry(DefaultStocks, i);
    }
  }

  /** The fallback list meets every promise `NormalizeSymbols` makes. */
  lemma FallbackWellFormed()
    ensures |Fallback| == 8
    ensures forall i, j :: 0 <= i < j < |Fallback| ==> Fallback[i].symbol != Fallback[j].symbol
    ensures forall i :: 0 <= i < |Fallback| ==> Fallback[i].symbol != [] && NoLower(Fallback[i].symbol)
    ensures forall i :: 0 <= i < |Fallback| ==> Fallback[i].company == CompanyOf(Fallback[i].symbol)
  {
    DefaultStocksWellFormed();
    var syms := Symbols(DefaultStocks);
    assert forall i :: 0 <= i < |Fallback| ==> Fallback[i] == DefaultStocks[i];
    assert forall i :: 0 <= i < |Fallback| ==> Fallback[i].symbol == syms[i];
    forall i | 0 <= i < |Fallback|
      ensures Fallback[i].company == CompanyOf(Fallback[i].symbol)
    {
      LookupFindsEntry(DefaultStocks, i);
    }
  }

  /** `s.trim().toUpperCase()`. */
  function Clean(part: string): (r: string)
    ensures NoLower(r)
    ensures r == [] <==> Trim(part) == []
  {
    ToUpper(Trim(part))
  }

  /**
   * `.map((s) => s.trim().toUpperCase()).filter(Boolean)` over the parts of
   * the split: every non-blank part, cleaned, in input order.
   */
  function CleanParts(parts: seq<string>): (r: seq<string>)
    ensures forall i :: 0 <= i < |r| ==> r[i] != [] && NoLower(r[i])
    ensures forall i :: 0 <= i < |r| ==> r[i] in Cleaned(parts)
    ensures forall j :: 0 <= j < |parts| && Trim(parts[j]) != [] ==> Clean(parts[j]) in r
  {
    Filter(Cleaned(parts), (p: string) => p != [])
  }

  /** Cleaning keeps the non-blank parts in their order, each as often as it occurs. */
  lemma CleanPartsKeepsOrder(parts: seq<string>)
    ensures IsSubsequence(CleanParts(parts), Cleaned(parts))
    ensures forall j :: 0 <= j < |parts| ==>
      multiset(CleanParts(parts))[Clean(parts[j])] == if Clean(parts[j]) != [] then multiset(Cleaned(parts))[Clean(parts[j])] else 0
  {
    var c := Cleaned(parts);
    FilterIsSubsequence(c, (p: string) => p != []);
    forall j | 0 <= j < |parts|
      ensures multiset(CleanParts(parts))[Clean(parts[j])] == if Clean(parts[j]) != [] then multiset(c)[Clean(parts[j])] else 0
    {
      assert c[j] == Clean(parts[j]);
    }
  }

  function Cleaned(parts: seq<string>): (r: seq<string>)
    ensures |r| == |parts| && forall j :: 0 <= j < |parts| ==> r[j] == Clean(parts[j])
  {
    seq(|parts|, j requires 0 <= j < |parts| => Clean(parts[j]))
  }

  /** `Array.from(new Set(parts)).slice(0, 10)`. */
  function Unique(parts: seq<string>): (r: seq<string>)
    ensures |r| <= MaxSymbols && Distinct(r)
    ensures forall i :: 0 <= i < |r| ==> r[i] in parts
  {
    var d := Dedup(parts);
    if |d| <= MaxSymbols then d else d[..MaxSymbols]
  }

  /**
   * `normalizeSymbols(symbols)`: the stocks the table shows. At least one
   * and at most ten, with distinct, non-empty, upper-case symbols.
   */
  function NormalizeSymbols(symbols: Option<string>): (r: seq<StockMeta>)
    ensures 1 <= |r| <= MaxSymbols
    ensures forall i, j :: 0 <= i < j < |r| ==> r[i].symbol != r[j].symbol
    ensures forall i :: 0 <= i < |r| ==> r[i].symbol != [] && NoLower(r[i].symbol)
    ensures forall i :: 0 <= i < |r| ==> r[i].company == CompanyOf(r[i].symbol)
  {
    FallbackWellFormed();
    if symbols.None? || symbols.value == [] then Fallback
    else
      var unique := Unique(CleanParts(Split(symbols.value, ',')));
      if unique == [] then Fallback
      else WithCompanies(unique)
  }

  /** `unique.map((symbol) => ({ symbol, company: lookup.get(symbol) || symbol }))`. */
  function WithCompanies(symbols: seq<string>): (r: seq<StockMeta>)
    ensures |r| == |symbols| && Symbols(r) == symbols
    ensures forall i :: 0 <= i < |r| ==> r[i].company == CompanyOf(r[i].symbol)
  {
    seq(|symbols|, i requires 0 <= i < |symbols| => StockMeta(symbols[i], CompanyOf(symbols[i])))
  }

  /** No setting, an empty setting, or one with only blank parts shows the first eight default stocks. */
  lemma FallbackCases(s: string)
    requires forall i :: 0 <= i < |s| ==> s[i] == ',' || IsSpace(s[i])
    ensures NormalizeSymbols(None) == Fallback
    ensures NormalizeSymbols(Some(s)) == Fallback
  {
    if s != [] {
      var parts := Split(s, ',');
      JoinSplit(s, ',');
      forall j | 0 <= j < |parts|
        ensures Trim(parts[j]) == []
      {
        BlankPart(s, j);
      }
      var c := CleanParts(parts);
      assert forall j :: 0 <= j < |parts| ==> Cleaned(parts)[j] == [];
      assert forall x :: x in c ==> x in Cleaned(parts) && x != [];
      assert Dedup(c) == [];
    }
  }

  /** The fallback is the first eight default stocks. */
  lemma FallbackSymbols()
    ensures Symbols(Fallback) == ["AAPL", "MSFT", "GOOGL", "AMZN", "META", "TSLA", "NVDA", "NFLX"]
  {
  }

  /** A part of a string made of commas and white space is blank. */
  lemma BlankPart(s: string, j: nat)
    requires forall i :: 0 <= i < |s| ==> s[i] == ',' || IsSpace(s[i])
    requires j < |Split(s, ',')|
    ensures Trim(Split(s, ',')[j]) == []
    decreases |s|
  {
    var part := Split(s, ',')[j];
    assert ',' !in part;
    forall i | 0 <= i < |part|
      ensures IsSpace(part[i])
    {
      PartCharFromString(s, j, i);
    }
    TrimBlank(part);
  }

  /** Every character of every part of `s.split(sep)` is a character of `s`. */
  lemma {:induction false} PartCharFromString(s: string, j: nat, i: nat)
    requires j < |Split(s, ',')| && i < |Split(s, ',')[j]|
    ensures Split(s, ',')[j][i] in s
    decreases |s|
  {
    if s != [] {
      var rest := Split(s[1..], ',');
      if s[0] == ',' {
        assert Split(s, ',')[j] == rest[j - 1];
        PartCharFromString(s[1..], j - 1, i);
      } else if j == 0 {
        if i > 0 {
          PartCharFromString(s[1..], 0, i - 1);
        }
      } else {
        assert Split(s, ',')[j] == rest[j];
        PartCharFromString(s[1..], j, i);
      }
    }
  }

  /**
   * The set keeps the parts in the order they first appear, each once, and
   * the cut to ten drops nothing when there are at most ten different parts.
   */
  lemma UniqueKeepsOrder(parts: seq<string>)
    ensures IsSubsequence(Unique(parts), Dedup(parts)) && IsSubsequence(Dedup(parts), parts)
    ensures |Dedup(parts)| <= MaxSymbols ==> forall j :: 0 <= j < |parts| ==> parts[j] in Unique(parts)
    ensures |Unique(parts)| == if |Dedup(parts)| <= MaxSymbols then |Dedup(parts)| else MaxSymbols
    ensures Unique(parts) == Dedup(parts)[..|Unique(parts)|]
    ensures forall i, j :: 0 <= i < j < |Unique(parts)| ==> FirstIndex(parts, Unique(parts)[i]) < FirstIndex(parts, Unique(parts)[j])
  {
    DedupFirstOccurrence(parts);
    var d := Dedup(parts);
    SubsequenceRefl(d);
    PrefixOfSubsequence(d, d, if |d| <= MaxSymbols then |d| else MaxSymbols);
    assert d[..|d|] == d;
    DedupKeepsOrder(parts);
  }

  /** A setting that names at least one symbol shows exactly the set of its cleaned parts, cut to ten. */
  lemma NamedSymbolsShown(s: string)
    requires s != [] && CleanParts(Split(s, ',')) != []
    ensures Symbols(NormalizeSymbols(Some(s))) == Unique(CleanParts(Split(s, ',')))
  {
    var c := CleanParts(Split(s, ','));
    assert c[0] in Dedup(c);
  }

  lemma {:induction false} SubsequenceRefl(s: seq<string>)
    ensures IsSubsequence(s, s)
  {
    if s != [] {
      SubsequenceRefl(s[1..]);
    }
  }

  // ---------------------------------------------------------------- settled results

  /** The row for a fulfilled request: symbol, price and change from the quote, company from the requested stock. */
  function RowFor(meta: StockMeta, q: StockQuote): Row
  {
    Row(q.symbol, meta.company, q.price, q.changePercent)
  }

  /** The rows built from the fulfilled requests, in request order. */
  function RowsOf(metas: seq<StockMeta>, results: seq<Result<StockQuote, string>>): (rows: seq<Row>)
    requires |metas| == |results|
    decreases |results|
  {
    if results == [] then []
    else
      var n := |results| - 1;
      RowsOf(metas[..n], results[..n]) +
        match results[n]
        case Success(q) => [RowFor(metas[n], q)]
        case Failure(_) => []
  }

  /** The requested symbols whose request was rejected, in request order. */
  function FailuresOf(metas: seq<StockMeta>, results: seq<Result<StockQuote, string>>): (failures: seq<string>)
    requires |metas| == |results|
    decreases |results|
  {
    if results == [] then []
    else
      var n := |results| - 1;
      FailuresOf(metas[..n], results[..n]) + if results[n].Failure? then [metas[n].symbol] else []
  }

  /** The error the table shows after a refresh. */
  function LoadError(rows: seq<Row>, failures: seq<string>): (e: Option<string>)
    ensures e.None? <==> failures == []
  {
    if |rows| == 0 && |failures| > 0 then Some("Failed to load quotes for: " + Join(failures, ", "))
    else if |failures| > 0 then Some("Partial data (failed: " + Join(failures, ", ") + ")")
    else None
  }

  /** The `forEach` over the settled results, pushing each into the rows or the failures. */
  method PartitionResults(metas: seq<StockMeta>, results: seq<Result<StockQuote, string>>)
    returns (rows: seq<Row>, failures: seq<string>, error: Option<string>)
    requires |metas| == |results|
    ensures rows == RowsOf(metas, results) && failures == FailuresOf(metas, results)
    ensures error == LoadError(rows, failures)
  {
    rows := [];
    failures := [];
    var idx := 0;
    while idx < |results|
      invariant 0 <= idx <= |results|
      invariant rows == RowsOf(metas[..idx], results[..idx])
      invariant failures == FailuresOf(metas[..idx], results[..idx])
    {
      var meta := metas[idx];
      match results[idx] {
        case Success(q) =>
          rows := rows + [RowFor(meta, q)];
        case Failure(_) =>
          failures := failures + [meta.symbol];
      }
      assert metas[..idx + 1][..idx] == metas[..idx];
      assert results[..idx + 1][..idx] == results[..idx];
      idx := idx + 1;
    }
    assert metas[..idx] == metas && results[..idx] == results;
    error := LoadError(rows, failures);
  }

  /** Every result lands in exactly one of the two lists: the two lengths add up to the number of results. */
  lemma {:induction false} PartitionCounts(metas: seq<StockMeta>, results: seq<Result<StockQuote, string>>)
    requires |metas| == |results|
    ensures |RowsOf(metas, results)| + |FailuresOf(metas, results)| == |results|
    decreases |results|
  {
    if results != [] {
      var n := |results| - 1;
      PartitionCounts(metas[..n], results[..n]);
    }
  }

  /** A fulfilled request becomes a row with its quote and its stock's company; a rejected one lists its symbol. */
  lemma {:induction false} PartitionMembers(metas: seq<StockMeta>, results: seq<Result<StockQuote, string>>, j: nat)
    requires |metas| == |results| && j < |results|
    ensures results[j].Failure? ==> metas[j].symbol in FailuresOf(metas, results)
    ensures results[j].Success? ==> RowFor(metas[j], results[j].value) in RowsOf(metas, results)
    decreases |results|
  {
    var n := |results| - 1;
    if j < n {
      PartitionMembers(metas[..n], results[..n], j);
      assert metas[..n][j] == metas[j] && results[..n][j] == results[j];
    }
  }

  /**
   * The rows are the fulfilled requests in request order: the k-th row comes
   * from the k-th fulfilled request, and every fulfilled request has its row.
   */
  lemma {:induction false} RowsInOrder(metas: seq<StockMeta>, results: seq<Result<StockQuote, string>>) returns (idx: seq<nat>)
    requires |metas| == |results|
    ensures |idx| == |RowsOf(metas, results)|
    ensures forall k :: 0 <= k < |idx| ==>
      idx[k] < |results| && results[idx[k]].Success? && RowsOf(metas, results)[k] == RowFor(metas[idx[k]], results[idx[k]].value)
    ensures forall k, l :: 0 <= k < l < |idx| ==> idx[k] < idx[l]
    ensures forall j :: 0 <= j < |results| && results[j].Success? ==> j in idx
    decreases |results|
  {
    if results == [] {
      return [];
    }
    var n := |results| - 1;
    var ms, rs := metas[..n], results[..n];
    var prefix := RowsInOrder(ms, rs);
    var rows0 := RowsOf(ms, rs);
    var rows := RowsOf(metas, results);
    if results[n].Success? {
      assert rows == rows0 + [RowFor(metas[n], results[n].value)];
      idx := prefix + [n];
    } else {
      assert rows == rows0;
      idx := prefix;
    }
    forall k | 0 <= k < |idx|
      ensures idx[k] < |results| && results[idx[k]].Success? && rows[k] == RowFor(metas[idx[k]], results[idx[k]].value)
    {
      if k < |prefix| {
        var j := prefix[k];
        assert idx[k] == j && rows[k] == rows0[k] == RowFor(ms[j], rs[j].value);
        assert ms[j] == metas[j] && rs[j] == results[j];
      }
    }
    forall j | 0 <= j < |results| && results[j].Success?
      ensures j in idx
    {
      if j < n {
        assert rs[j] == results[j];
      }
    }
  }

  /**
   * The failures are the rejected requests' symbols in request order: the
   * k-th failure is the symbol of the k-th rejected request, and every
   * rejected request is listed.
   */
  lemma {:induction false} FailuresInOrder(metas: seq<StockMeta>, results: seq<Result<StockQuote, string>>) returns (idx: seq<nat>)
    requires |metas| == |results|
    ensures |idx| == |FailuresOf(metas, results)|
    ensures forall k :: 0 <= k < |idx| ==>
      idx[k] < |results| && results[idx[k]].Failure? && FailuresOf(metas, results)[k] == metas[idx[k]].symbol
    ensures forall k, l :: 0 <= k < l < |idx| ==> idx[k] < idx[l]
    ensures forall j :: 0 <= j < |results| && results[j].Failure? ==> j in idx
    decreases |results|
  {
    if results == [] {
      return [];
    }
    var n := |results| - 1;
    var ms, rs := metas[..n], results[..n];
    var prefix := FailuresInOrder(ms, rs);
    var failures0 := FailuresOf(ms, rs);
    var failures := FailuresOf(metas, results);
    if results[n].Failure? {
      assert failures == failures0 + [metas[n].symbol];
      idx := prefix + [n];
    } else {
      assert failures == failures0;
      idx := prefix;
    }
    forall k | 0 <= k < |idx|
      ensures idx[k] < |results| && results[idx[k]].Failure? && failures[k] == metas[idx[k]].symbol
    {
      if k < |prefix| {
        var j := prefix[k];
        assert idx[k] == j && failures[k] == failures0[k] == ms[j].symbol;
        assert ms[j] == metas[j] && rs[j] == results[j];
      }
    }
    forall j | 0 <= j < |results| && results[j].Failure?
      ensures j in idx
    {
      if j < n {
        assert rs[j] == results[j];
      }
    }
  }

  /** When every request succeeds nothing fails; when every one fails there are no rows and every symbol is listed. */
  lemma {:induction false} PartitionUniform(metas: seq<StockMeta>, results: seq<Result<StockQuote, string>>)
    requires |metas| == |results|
    ensures (forall j :: 0 <= j < |results| ==> results[j].Success?) ==> FailuresOf(metas, results) == []
    ensures (forall j :: 0 <= j < |results| ==> results[j].Failure?) ==>
              RowsOf(metas, results) == [] && FailuresOf(metas, results) == Symbols(metas)
    decreases |results|
  {
    if results != [] {
      var n := |results| - 1;
      PartitionUniform(metas[..n], results[..n]);
      assert forall j :: 0 <= j < n ==> results[..n][j] == results[j];
      assert Symbols(metas) == Symbols(metas[..n]) + [metas[n].symbol];
    }
  }

  /**
   * The error message: none when every request succeeded, the all-failed
   * message naming every requested symbol when none did, and the partial
   * message when some failed.
   */
  lemma LoadErrorCases(metas: seq<StockMeta>, results: seq<Result<StockQuote, string>>)
    requires |metas| == |results|
    ensures (forall j :: 0 <= j < |results| ==> results[j].Success?) ==>
              LoadError(RowsOf(metas, results), FailuresOf(metas, results)) == None
    ensures results != [] && (forall j :: 0 <= j < |results| ==> results[j].Failure?) ==>
              LoadError(RowsOf(metas, results), FailuresOf(metas, results))
                == Some("Failed to load quotes for: " + Join(Symbols(metas), ", "))
    ensures (exists j :: 0 <= j < |results| && results[j].Success?) && (exists j :: 0 <= j < |results| && results[j].Failure?) ==>
              LoadError(RowsOf(metas, results), FailuresOf(metas, results))
                == Some("Partial data (failed: " + Join(FailuresOf(metas, results), ", ") + ")")
  {
    var rows := RowsOf(metas, results);
    var failures := FailuresOf(metas, results);
    PartitionUniform(metas, results);
    if (exists j :: 0 <= j < |results| && results[j].Success?) && (exists j :: 0 <= j < |results| && results[j].Failure?) {
      var j :| 0 <= j < |results| && results[j].Success?;
      var k :| 0 <= k < |results| && results[k].Failure?;
      PartitionMembers(metas, results, j);
      PartitionMembers(metas, results, k);
      assert |rows| > 0 && |failures| > 0;
    }
  }

  // ---------------------------------------------------------------- search

  /** A row passes the search box when the trimmed term is blank, or its lower-cased symbol or company contains the lower-cased (untrimmed) term. */
  predicate RowMatches(row: Row, search: string) {
    Trim(search) == []
    || Contains(ToLower(row.symbol), ToLower(search))
    || Contains(ToLower(row.company), ToLower(search))
  }

  /** `filteredRows`. */
  function FilterRows(rows: seq<Row>, search: string): (r: seq<Row>)
    ensures forall i :: 0 <= i < |r| ==> r[i] in rows && RowMatches(r[i], search)
    ensures forall i :: 0 <= i < |rows| && RowMatches(rows[i], search) ==> rows[i] in r
    ensures forall i :: 0 <= i < |rows| ==>
      multiset(r)[rows[i]] == if RowMatches(rows[i], search) then multiset(rows)[rows[i]] else 0
  {
    Filter(rows, (row: Row) => RowMatches(row, search))
  }

  /** The search keeps rows in their order, and a blank search keeps every row. */
  lemma FilterRowsOrder(rows: seq<Row>, search: string)
    ensures IsSubsequence(FilterRows(rows, search), rows)
    ensures (forall i :: 0 <= i < |search| ==> IsSpace(search[i])) ==> FilterRows(rows, search) == rows
  {
    FilterIsSubsequence(rows, (row: Row) => RowMatches(row, search));
    TrimBlank(search);
    if forall i :: 0 <= i < |search| ==> IsSpace(search[i]) {
      FilterAll(rows, (row: Row) => RowMatches(row, search));
    }
  }

  /** The search ignores the case of the term. */
  lemma SearchIgnoresCase(rows: seq<Row>, search: string)
    ensures FilterRows(rows, ToUpper(search)) == FilterRows(rows, search)
  {
    LowerOfUpper(search);
    UpperKeepsSpace(search);
    TrimBlank(search);
    TrimBlank(ToUpper(search));
    FilterCongruent(rows, (row: Row) => RowMatches(row, ToUpper(search)), (row: Row) => RowMatches(row, search));
  }

  /** Typing a row's symbol, in any case, keeps that row. */
  lemma SymbolSearchKeepsRow(rows: seq<Row>, search: string, i: nat)
    requires i < |rows| && ToLower(search) == ToLower(rows[i].symbol)
    ensures rows[i] in FilterRows(rows, search)
  {
    assert ToLower(rows[i].symbol) <= ToLower(rows[i].symbol);
  }
}
