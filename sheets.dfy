/** The listing search over the three property sheets
    (`GoogleSheetsService.search_properties`): every row is tagged with the
    sheet it came from, then four optional filter stages each keep an
    order-preserving part of the rows. The sheet contents are inputs; a sheet
    that cannot be fetched contributes no rows. */
module SheetSearch {
  import opened Common

  // ---------------------------------------------------------------------
  // The price cell.
  // ---------------------------------------------------------------------

  /** `price_str.replace('$', '').replace(',', '').replace(' ', '')`. */
  function CleanPrice(s: string): (r: string)
    ensures |r| <= |s|
    ensures forall i :: 0 <= i < |r| ==> r[i] != '$' && r[i] != ',' && r[i] != ' '
  {
    if s == [] then []
    else (if s[0] == '$' || s[0] == ',' || s[0] == ' ' then [] else [s[0]]) + CleanPrice(s[1..])
  }

  /** The nested `extract_price`: the cleaned text parsed as an int, and 0
      when parsing fails or the cell is not a string at all (an int cell has
      no `replace`, so even a numeric cell reads as 0). */
  function ExtractPrice(v: Value): (p: int)
    ensures !v.Str? ==> p == 0
    ensures v.Str? && PyInt(CleanPrice(v.s)).None? ==> p == 0
  {
    match v
    case Str(s) => (match PyInt(CleanPrice(s)) case Some(n) => n case None => 0)
    case _ => 0
  }

  /** `_price_in_range`: in range exactly when each bound that is given
      holds, so with no bounds every price is. */
  function PriceInRange(price: int, minPrice: Option<int>, maxPrice: Option<int>): (b: bool)
    ensures b <==> (minPrice.None? || price >= minPrice.value) && (maxPrice.None? || price <= maxPrice.value)
    ensures minPrice.None? && maxPrice.None? ==> b
  {
    if minPrice.Some? && price < minPrice.value then false
    else if maxPrice.Some? && price > maxPrice.value then false
    else true
  }

  // ---------------------------------------------------------------------
  // Reading back a rent as the sheets write it.
  // ---------------------------------------------------------------------

  lemma {:induction false} CleanAppend(a: string, b: string)
    ensures CleanPrice(a + b) == CleanPrice(a) + CleanPrice(b)
    decreases |a|
  {
    if a != [] {
      assert (a + b)[1..] == a[1..] + b;
      CleanAppend(a[1..], b);
    } else {
      assert a + b == b;
    }
  }

  /** Text without '$', ',' or ' ' is left alone. */
  lemma {:induction false} CleanPlain(s: string)
    requires forall i :: 0 <= i < |s| ==> s[i] != '$' && s[i] != ',' && s[i] != ' '
    ensures CleanPrice(s) == s
    decreases |s|
  {
    if s != [] {
      CleanPlain(s[1..]);
    }
  }

  lemma CleanDollar(s: string)
    ensures CleanPrice("$" + s) == CleanPrice(s)
  {
    CleanAppend("$", s);
    assert CleanPrice("$") == [];
  }

  /** A rent as the sheets write it, such as "$18,000". */
  function PriceText(n: nat): string
  {
    "$" + Grouped(n)
  }

  /** Appending three zero-padded digits multiplies by a thousand and adds. */
  lemma AppendPad3(x: string, m: nat)
    requires m < 1000 && AllDigits(x)
    ensures AllDigits(x + Pad3(m))
    ensures DigitsValue(x + Pad3(m)) == DigitsValue(x) * 1000 + m
  {
    var p := Pad3(m);
    DigitCharValue(m / 100);
    DigitCharValue(m / 10 % 10);
    DigitCharValue(m % 10);
    assert x + p == ((x + [p[0]]) + [p[1]]) + [p[2]];
    DigitsValueSnoc(x, p[0]);
    DigitsValueSnoc(x + [p[0]], p[1]);
    DigitsValueSnoc((x + [p[0]]) + [p[1]], p[2]);
    ThreeDigits(m);
  }

  lemma {:induction false} GroupedClean(n: nat)
    ensures |CleanPrice(Grouped(n))| > 0 && AllDigits(CleanPrice(Grouped(n)))
    ensures DigitsValue(CleanPrice(Grouped(n))) == n
    decreases n
  {
    if n < 1000 {
      NatDigitsValue(n);
      CleanPlain(NatToString(n));
    } else {
      var q := n / 1000;
      var m := n % 1000;
      GroupedClean(q);
      var p := Pad3(m);
      CleanAppend(Grouped(q) + ",", p);
      CleanAppend(Grouped(q), ",");
      CleanPlain(p);
      assert CleanPrice(Grouped(n)) == CleanPrice(Grouped(q)) + p;
      AppendPad3(CleanPrice(Grouped(q)), m);
    }
  }

  lemma ThreeDigits(m: nat)
    requires m < 1000
    ensures m == m / 100 * 100 + m / 10 % 10 * 10 + m % 10
  {
    var a, r := m / 100, m % 100;
    assert m == 100 * a + r;
    assert m / 10 == 10 * a + r / 10;
    assert m / 10 % 10 == r / 10;
    assert m % 10 == r % 10;
  }

  /** `extract_price` reads back the rent a sheet writes as "$18,000". */
  lemma ExtractPriceText(n: nat)
    ensures ExtractPrice(Str(PriceText(n))) == n
  {
    GroupedClean(n);
    CleanDollar(Grouped(n));
    PyIntAllDigits(CleanPrice(Grouped(n)));
  }

  // ---------------------------------------------------------------------
  // Collecting the rows.
  // ---------------------------------------------------------------------

  /** One sheet's rows, each with `listing['source'] = source_name`; every
      other key is kept. */
  function TagAll(listings: seq<Dict>, name: string): (r: seq<Dict>)
    ensures |r| == |listings|
    ensures forall i :: 0 <= i < |r| ==> "source" in r[i] && r[i]["source"] == Str(name)
    ensures forall i, key :: 0 <= i < |r| && key in listings[i] && key != "source" ==>
              key in r[i] && r[i][key] == listings[i][key]
    ensures forall i :: 0 <= i < |r| ==> r[i].Keys == listings[i].Keys + {"source"}
  {
    seq(|listings|, i requires 0 <= i < |listings| => listings[i]["source" := Str(name)])
  }

  /** All rows of the sheets, in sheet order and row order, tagged. */
  function Tagged(sources: seq<(string, seq<Dict>)>): (r: seq<Dict>)
    ensures forall x :: x in r ==> "source" in x
  {
    if sources == [] then []
    else
      var last := sources[|sources| - 1];
      Tagged(sources[..|sources| - 1]) + TagAll(last.1, last.0)
  }

  /** The sheets in the order `get_all_property_listings` lists them. */
  function Sheets(hse: seq<Dict>, centaline: seq<Dict>, squarefoot: seq<Dict>): seq<(string, seq<Dict>)>
  {
    [("28hse", hse), ("centaline", centaline), ("squarefoot", squarefoot)]
  }

  /** The collecting loop of `search_properties`. */
  method CollectListings(sources: seq<(string, seq<Dict>)>) returns (all: seq<Dict>)
    ensures all == Tagged(sources)
  {
    all := [];
    for i := 0 to |sources|
      invariant all == Tagged(sources[..i])
    {
      var name := sources[i].0;
      var listings := sources[i].1;
      for j := 0 to |listings|
        invariant all == Tagged(sources[..i]) + TagAll(listings[..j], name)
      {
        assert TagAll(listings[..j + 1], name) == TagAll(listings[..j], name) + [listings[j]["source" := Str(name)]];
        all := all + [listings[j]["source" := Str(name)]];
      }
      assert listings[..|listings|] == listings;
      assert sources[..i + 1][..i] == sources[..i];
    }
    assert sources[..|sources|] == sources;
  }

  // ---------------------------------------------------------------------
  // The filter stages.
  // ---------------------------------------------------------------------

  /** `v.lower()`, which raises for anything but a string. */
  function LowerOf(v: Value): (r: Result<string>)
    ensures r.Ok? <==> v.Str?
    ensures r.Ok? ==> r.value == Lower(v.s)
  {
    if v.Str? then Ok(Lower(v.s)) else Err(Internal("object has no attribute 'lower'"))
  }

  /** The query test: the lowered query in the lowered title, else address,
      else development; the `or` stops at the first match. */
  function QueryMatch(l: Dict, q: string): Result<bool>
  {
    match LowerOf(Get(l, "title", Str("")))
    case Err(e) => Err(e)
    case Ok(title) =>
      if IsSubstring(q, title) then Ok(true)
      else match LowerOf(Get(l, "address", Str("")))
        case Err(e) => Err(e)
        case Ok(address) =>
          if IsSubstring(q, address) then Ok(true)
          else match LowerOf(Get(l, "development", Str("")))
            case Err(e) => Err(e)
            case Ok(development) => Ok(IsSubstring(q, development))
  }

  /** `rooms in listing.get('rooms', '')`: a substring test on a string, an
      element test on a list, a key test on a dictionary; other values are
      not iterable and raise. */
  function RoomsMatch(l: Dict, rooms: string): Result<bool>
  {
    match Get(l, "rooms", Str(""))
    case Str(s) => Ok(IsSubstring(rooms, s))
    case List(items) => Ok(Str(rooms) in items)
    case Obj(fields) => Ok(rooms in fields)
    case _ => Err(Internal("argument is not iterable"))
  }

  function DevelopmentMatch(l: Dict, development: string): Result<bool>
  {
    match LowerOf(Get(l, "development", Str("")))
    case Err(e) => Err(e)
    case Ok(d) => Ok(IsSubstring(development, d))
  }

  function PriceMatch(l: Dict, minPrice: Option<int>, maxPrice: Option<int>): Result<bool>
  {
    Ok(PriceInRange(ExtractPrice(Get(l, "price", Str("0"))), minPrice, maxPrice))
  }

  /** The search arguments; an empty `query`, `rooms` or `development` is
      falsy and so is the same as leaving it out. */
  datatype SearchQuery = SearchQuery(
    query: string,
    minPrice: Option<int>,
    maxPrice: Option<int>,
    rooms: string,
    development: string)

  function QueryStage(ls: seq<Dict>, q: SearchQuery): Result<seq<Dict>>
  {
    if |q.query| > 0 then FilterOrFail(ls, l => QueryMatch(l, Lower(q.query))) else Ok(ls)
  }

  function PriceStage(ls: seq<Dict>, q: SearchQuery): Result<seq<Dict>>
  {
    if q.minPrice.Some? || q.maxPrice.Some? then FilterOrFail(ls, l => PriceMatch(l, q.minPrice, q.maxPrice))
    else Ok(ls)
  }

  function RoomsStage(ls: seq<Dict>, q: SearchQuery): Result<seq<Dict>>
  {
    if |q.rooms| > 0 then FilterOrFail(ls, l => RoomsMatch(l, q.rooms)) else Ok(ls)
  }

  function DevelopmentStage(ls: seq<Dict>, q: SearchQuery): Result<seq<Dict>>
  {
    if |q.development| > 0 then FilterOrFail(ls, l => DevelopmentMatch(l, Lower(q.development)))
    else Ok(ls)
  }

  /** The four stages in the order the code applies them; the first that
      raises ends the search. A search that succeeds returns, in their
      original order, exactly the rows that pass every stage switched on,
      each as many times as it occurs. */
  function Search(all: seq<Dict>, q: SearchQuery): (r: Result<seq<Dict>>)
    ensures r.Ok? ==> IsSubsequence(r.value, all)
    ensures r.Ok? ==> forall x :: x in r.value <==> x in all && Selected(x, q)
    ensures r.Ok? ==> forall x :: multiset(r.value)[x] == if Selected(x, q) then multiset(all)[x] else 0
  {
    match QueryStage(all, q)
    case Err(e) => Err(e)
    case Ok(a) =>
      match PriceStage(a, q)
      case Err(e) => Err(e)
      case Ok(b) =>
        match RoomsStage(b, q)
        case Err(e) => Err(e)
        case Ok(c) =>
          var d := DevelopmentStage(c, q);
          if d.Ok? then
            SearchStages(all, q, a, b, c, d.value);
            SearchStageCounts(all, q, a, b, c, d.value);
            d
          else d
  }

  /** `search_properties` on the three sheets' rows. */
  method SearchProperties(hse: seq<Dict>, centaline: seq<Dict>, squarefoot: seq<Dict>, q: SearchQuery)
    returns (r: Result<seq<Dict>>)
    ensures r == Search(Tagged(Sheets(hse, centaline, squarefoot)), q)
  {
    var all := CollectListings(Sheets(hse, centaline, squarefoot));
    r := Search(all, q);
  }

  // ---------------------------------------------------------------------
  // What the search promises.
  // ---------------------------------------------------------------------

  /** Whether a row passes every stage that is switched on. */
  predicate Selected(l: Dict, q: SearchQuery)
  {
    && (|q.query| > 0 ==> QueryMatch(l, Lower(q.query)) == Ok(true))
    && ((q.minPrice.Some? || q.maxPrice.Some?) ==> PriceMatch(l, q.minPrice, q.maxPrice) == Ok(true))
    && (|q.rooms| > 0 ==> RoomsMatch(l, q.rooms) == Ok(true))
    && (|q.development| > 0 ==> DevelopmentMatch(l, Lower(q.development)) == Ok(true))
  }

  lemma StageOutcome(ls: seq<Dict>, on: bool, keep: Dict -> Result<bool>, r: Result<seq<Dict>>)
    requires r == if on then FilterOrFail(ls, keep) else Ok(ls)
    ensures r.Ok? ==> IsSubsequence(r.value, ls)
    ensures r.Ok? ==> forall x :: x in r.value <==> x in ls && (on ==> keep(x) == Ok(true))
  {
    if r.Ok? {
      if on {
        FilterOrFailIsSubsequence(ls, keep);
      } else {
        SubsequenceRefl(ls);
      }
    }
  }

  /** A stage switched on keeps each passing row as many times as it occurs;
      one switched off keeps everything. */
  lemma StageCounts(ls: seq<Dict>, on: bool, keep: Dict -> Result<bool>, r: Result<seq<Dict>>)
    requires r == if on then FilterOrFail(ls, keep) else Ok(ls)
    ensures r.Ok? ==> forall x :: multiset(r.value)[x] == if on ==> keep(x) == Ok(true) then multiset(ls)[x] else 0
  {
    if r.Ok? && on {
      FilterOrFailCounts(ls, keep);
    }
  }

  /** The four stages together: each keeps an order-preserving
      subsequence, so the last stage's rows are a subsequence of all rows,
      exactly those passing every stage switched on. */
  lemma SearchStages(all: seq<Dict>, q: SearchQuery, a: seq<Dict>, b: seq<Dict>, c: seq<Dict>, d: seq<Dict>)
    requires QueryStage(all, q) == Ok(a) && PriceStage(a, q) == Ok(b)
    requires RoomsStage(b, q) == Ok(c) && DevelopmentStage(c, q) == Ok(d)
    ensures IsSubsequence(d, all)
    ensures forall x :: x in d <==> x in all && Selected(x, q)
  {
    StageOutcome(all, |q.query| > 0, l => QueryMatch(l, Lower(q.query)), Ok(a));
    StageOutcome(a, q.minPrice.Some? || q.maxPrice.Some?, l => PriceMatch(l, q.minPrice, q.maxPrice), Ok(b));
    StageOutcome(b, |q.rooms| > 0, l => RoomsMatch(l, q.rooms), Ok(c));
    StageOutcome(c, |q.development| > 0, l => DevelopmentMatch(l, Lower(q.development)), Ok(d));
    SubsequenceTrans(c, b, a);
    SubsequenceTrans(d, c, a);
    SubsequenceTrans(d, a, all);
  }

  /** The four stages together keep each row passing every stage switched
      on as many times as it occurs, and no other row. */
  lemma SearchStageCounts(all: seq<Dict>, q: SearchQuery, a: seq<Dict>, b: seq<Dict>, c: seq<Dict>, d: seq<Dict>)
    requires QueryStage(all, q) == Ok(a) && PriceStage(a, q) == Ok(b)
    requires RoomsStage(b, q) == Ok(c) && DevelopmentStage(c, q) == Ok(d)
    ensures forall x :: multiset(d)[x] == if Selected(x, q) then multiset(all)[x] else 0
  {
    StageCounts(all, |q.query| > 0, l => QueryMatch(l, Lower(q.query)), Ok(a));
    StageCounts(a, q.minPrice.Some? || q.maxPrice.Some?, l => PriceMatch(l, q.minPrice, q.maxPrice), Ok(b));
    StageCounts(b, |q.rooms| > 0, l => RoomsMatch(l, q.rooms), Ok(c));
    StageCounts(c, |q.development| > 0, l => DevelopmentMatch(l, Lower(q.development)), Ok(d));
  }

  /** With no filter argument the search returns every row. */
  lemma NoFilterKeepsAll(all: seq<Dict>, q: SearchQuery)
    requires |q.query| == 0 && q.minPrice.None? && q.maxPrice.None? && |q.rooms| == 0 && |q.development| == 0
    ensures Search(all, q) == Ok(all)
  {
  }

  /** A row whose title, address, development and rooms are strings (or
      absent) never makes the search raise. */
  predicate PlainRow(l: Dict)
  {
    && Get(l, "title", Str("")).Str?
    && Get(l, "address", Str("")).Str?
    && Get(l, "development", Str("")).Str?
    && Get(l, "rooms", Str("")).Str?
  }

  lemma {:induction false} PlainRowsSearchSucceeds(all: seq<Dict>, q: SearchQuery)
    requires forall x :: x in all ==> PlainRow(x)
    ensures Search(all, q).Ok?
  {
    PlainQueryStage(all, q);
    var a := QueryStage(all, q).value;
    var b := PriceStage(a, q);
    assert b.Ok? && forall x :: x in b.value ==> PlainRow(x) by {
      StageOutcome(a, q.minPrice.Some? || q.maxPrice.Some?, l => PriceMatch(l, q.minPrice, q.maxPrice), b);
    }
    PlainRoomsStage(b.value, q);
    PlainDevelopmentStage(RoomsStage(b.value, q).value, q);
  }

  /** The query stage never raises on plain rows, and keeps only plain rows. */
  lemma PlainQueryStage(ls: seq<Dict>, q: SearchQuery)
    requires forall x :: x in ls ==> PlainRow(x)
    ensures QueryStage(ls, q).Ok? && forall x :: x in QueryStage(ls, q).value ==> PlainRow(x)
  {
    StageOutcome(ls, |q.query| > 0, l => QueryMatch(l, Lower(q.query)), QueryStage(ls, q));
  }

  /** The rooms stage never raises on plain rows, and keeps only plain rows. */
  lemma PlainRoomsStage(ls: seq<Dict>, q: SearchQuery)
    requires forall x :: x in ls ==> PlainRow(x)
    ensures RoomsStage(ls, q).Ok? && forall x :: x in RoomsStage(ls, q).value ==> PlainRow(x)
  {
    StageOutcome(ls, |q.rooms| > 0, l => RoomsMatch(l, q.rooms), RoomsStage(ls, q));
  }

  /** The development stage never raises on plain rows. */
  lemma PlainDevelopmentStage(ls: seq<Dict>, q: SearchQuery)
    requires forall x :: x in ls ==> PlainRow(x)
    ensures DevelopmentStage(ls, q).Ok?
  {
  }
}
