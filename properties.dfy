/** The property list route (`get_properties`): three optional filters over
    the built-in property records, then a page cut out of the filtered list
    by slicing, with the page count rounded up. Any exception, such as a
    non-numeric `page` or a zero `limit`, becomes a failure answer. */
module PropertyListing {
  import opened Common

  /** The fields of a property record that the route reads, plus its id and
      rent; the other fields only travel through to the answer. */
  datatype Property = Property(
    id: int,
    title: string,
    location: string,
    price: int,
    source: string,
    status: string)

  /** The four records the route serves. */
  const BuiltInProperties: seq<Property> := [
    Property(1, "Modern 2BR Apartment in Central", "Central, Hong Kong Island", 45000, "28hse", "published"),
    Property(2, "Cozy Studio in Causeway Bay", "Causeway Bay, Hong Kong Island", 28000, "squarefoot", "pending"),
    Property(3, "Luxury 3BR Penthouse in Mid-Levels", "Mid-Levels, Hong Kong Island", 85000, "centaline", "published"),
    Property(4, "Spacious Family Home in Tai Koo", "Tai Koo, Hong Kong Island", 55000, "28hse", "draft")
  ]

  /** The data part of a successful answer. */
  datatype PropertyPage = PropertyPage(
    properties: seq<Property>,
    total: nat,
    page: int,
    limit: int,
    totalPages: int)

  /** `request.args.get(key, default)` for a text argument. */
  function TextArg(args: map<string, string>, key: string, default: string): string
  {
    if key in args then args[key] else default
  }

  /** `int(request.args.get(key, default))` with an int default. */
  function IntArg(args: map<string, string>, key: string, default: int): (r: Option<int>)
    ensures key !in args ==> r == Some(default)
  {
    if key in args then PyInt(args[key]) else Some(default)
  }

  predicate SearchHit(p: Property, search: string)
  {
    IsSubstring(Lower(search), Lower(p.title)) || IsSubstring(Lower(search), Lower(p.location))
  }

  /** The three filters in the order the route applies them; an empty
      search, status 'all' and source 'all' each switch theirs off. */
  function Filtered(properties: seq<Property>, search: string, status: string, source: string): seq<Property>
  {
    var a := if |search| > 0 then Filter(properties, p => SearchHit(p, search)) else properties;
    var b := if status != "all" then Filter(a, (p: Property) => p.status == status) else a;
    if source != "all" then Filter(b, (p: Property) => p.source == source) else b
  }

  /** `items[(page - 1) * limit : (page - 1) * limit + limit]`. */
  function PageOf<T>(items: seq<T>, page: int, limit: int): seq<T>
  {
    PySlice(items, (page - 1) * limit, (page - 1) * limit + limit)
  }

  /** `(total + limit - 1) // limit`. */
  function TotalPages(total: nat, limit: int): int
    requires limit != 0
  {
    FloorDiv(total + limit - 1, limit)
  }

  /** `get_properties` on the given records. */
  function GetProperties(args: map<string, string>, properties: seq<Property>): (r: Result<PropertyPage>)
    ensures IntArg(args, "page", 1).None? || IntArg(args, "limit", 20).None? ==> r.Err?
    ensures IntArg(args, "limit", 20) == Some(0) ==> r.Err?
    ensures IntArg(args, "page", 1).Some? && IntArg(args, "limit", 20).Some? && IntArg(args, "limit", 20) != Some(0)
            ==> r.Ok? && r.value.page == IntArg(args, "page", 1).value && r.value.limit == IntArg(args, "limit", 20).value
  {
    var search := TextArg(args, "search", "");
    var status := TextArg(args, "status", "all");
    var source := TextArg(args, "source", "all");
    match IntArg(args, "page", 1)
    case None => Err(Internal("invalid literal for int()"))
    case Some(page) =>
      match IntArg(args, "limit", 20)
      case None => Err(Internal("invalid literal for int()"))
      case Some(limit) =>
        var filtered := Filtered(properties, search, status, source);
        if limit == 0 then Err(Internal("integer division or modulo by zero"))
        else Ok(PropertyPage(PageOf(filtered, page, limit), |filtered|, page, limit, TotalPages(|filtered|, limit)))
  }

  // ---------------------------------------------------------------------
  // Filters.
  // ---------------------------------------------------------------------

  /** The filtered list keeps the order of the records and holds exactly the
      records that pass every filter switched on. */
  lemma {:induction false} FilteredMeaning(properties: seq<Property>, search: string, status: string, source: string)
    ensures IsSubsequence(Filtered(properties, search, status, source), properties)
    ensures forall p :: p in Filtered(properties, search, status, source) <==>
      && p in properties
      && (|search| > 0 ==> SearchHit(p, search))
      && (status != "all" ==> p.status == status)
      && (source != "all" ==> p.source == source)
  {
    var a := if |search| > 0 then Filter(properties, p => SearchHit(p, search)) else properties;
    var b := if status != "all" then Filter(a, (p: Property) => p.status == status) else a;
    var c := Filtered(properties, search, status, source);
    if |search| > 0 { FilterIsSubsequence(properties, p => SearchHit(p, search)); } else { SubsequenceRefl(properties); }
    if status != "all" { FilterIsSubsequence(a, (p: Property) => p.status == status); } else { SubsequenceRefl(a); }
    if source != "all" { FilterIsSubsequence(b, (p: Property) => p.source == source); } else { SubsequenceRefl(b); }
    SubsequenceTrans(c, b, a);
    SubsequenceTrans(c, a, properties);
  }

  /** With an empty search and status and source 'all', nothing is removed. */
  lemma NoFilterKeepsAll(properties: seq<Property>)
    ensures Filtered(properties, "", "all", "all") == properties
  {
  }

  // ---------------------------------------------------------------------
  // Pagination.
  // ---------------------------------------------------------------------

  /** A page never holds more than `limit` entries, whatever `page` is (a
      page below 1 slices from the end, as Python does). */
  lemma PageAtMostLimit<T>(items: seq<T>, page: int, limit: int)
    requires limit >= 0
    ensures |PageOf(items, page, limit)| <= limit
  {
    var start := (page - 1) * limit;
    var a := SliceBound(start, |items|);
    var b := SliceBound(start + limit, |items|);
    assert a < b ==> b - a <= limit;
  }

  /** For page 1 on, the page is the run of the filtered list that starts
      after the earlier pages, cut short at the end of the list. */
  lemma PageIsRun<T>(items: seq<T>, page: int, limit: int)
    requires page >= 1 && limit > 0
    ensures var start := (page - 1) * limit;
      var end := start + limit;
      PageOf(items, page, limit)
      == items[(if start < |items| then start else |items|)..(if end < |items| then end else |items|)]
  {
    var start := (page - 1) * limit;
    assert start >= 0 by { NonNegativeProduct(page - 1, limit); }
  }

  lemma NonNegativeProduct(a: int, b: int)
    requires a >= 0 && b >= 0
    ensures a * b >= 0
  {
  }

  /** `total_pages` is the ceiling of `total / limit`: the pages before the
      last one hold fewer than `total` entries and all of them hold at least
      `total`. */
  lemma TotalPagesIsCeiling(total: nat, limit: int)
    requires limit > 0
    ensures TotalPages(total, limit) >= 0
    ensures TotalPages(total, limit) * limit >= total
    ensures (TotalPages(total, limit) - 1) * limit < total
  {
    var q := TotalPages(total, limit);
    assert q * limit <= total + limit - 1 < q * limit + limit;
    assert (q - 1) * limit == q * limit - limit;
  }

  /** Pages 1 to `n` one after the other. */
  function PagesUpTo<T>(items: seq<T>, limit: int, n: nat): seq<T>
  {
    if n == 0 then [] else PagesUpTo(items, limit, n - 1) + PageOf(items, n, limit)
  }

  lemma {:induction false} PagesUpToPrefix<T>(items: seq<T>, limit: int, n: nat)
    requires limit > 0
    ensures n * limit >= 0
    ensures PagesUpTo(items, limit, n) == items[..if n * limit < |items| then n * limit else |items|]
  {
    NonNegativeProduct(n, limit);
    if n > 0 {
      PagesUpToPrefix(items, limit, n - 1);
      NonNegativeProduct(n - 1, limit);
      assert (n - 1) * limit + limit == n * limit;
      PageIsRun(items, n, limit);
      var a := if (n - 1) * limit < |items| then (n - 1) * limit else |items|;
      var b := if n * limit < |items| then n * limit else |items|;
      assert items[..a] + items[a..b] == items[..b];
    }
  }

  /** Reading pages 1 to `total_pages` in turn gives back every filtered
      record exactly once and in order. */
  lemma PagesCoverAll<T>(items: seq<T>, limit: int)
    requires limit > 0
    ensures TotalPages(|items|, limit) >= 0
    ensures PagesUpTo(items, limit, TotalPages(|items|, limit) as nat) == items
  {
    TotalPagesIsCeiling(|items|, limit);
    PagesUpToPrefix(items, limit, TotalPages(|items|, limit) as nat);
  }

  // ---------------------------------------------------------------------
  // The answer.
  // ---------------------------------------------------------------------

  /** The filtered list the route pages through for `args`. */
  function FilteredFor(args: map<string, string>, properties: seq<Property>): seq<Property>
  {
    Filtered(properties, TextArg(args, "search", ""), TextArg(args, "status", "all"), TextArg(args, "source", "all"))
  }

  /** A successful answer holds the requested slice of the filtered list and
      counts the whole filtered list. */
  lemma AnswerIsFilteredPage(args: map<string, string>, properties: seq<Property>)
    requires GetProperties(args, properties).Ok?
    ensures var page := IntArg(args, "page", 1).value;
            var limit := IntArg(args, "limit", 20).value;
            var r := GetProperties(args, properties).value;
      && limit != 0
      && r.total == |FilteredFor(args, properties)|
      && r.properties == PageOf(FilteredFor(args, properties), page, limit)
      && r.totalPages == TotalPages(|FilteredFor(args, properties)|, limit)
  {
  }

  /** With a positive limit, the page holds at most `limit` records and the
      page count is the rounded-up quotient. */
  lemma AnswerBounds(args: map<string, string>, properties: seq<Property>)
    requires GetProperties(args, properties).Ok? && GetProperties(args, properties).value.limit > 0
    ensures |GetProperties(args, properties).value.properties| <= GetProperties(args, properties).value.limit
    ensures (GetProperties(args, properties).value.totalPages - 1) * GetProperties(args, properties).value.limit
            < GetProperties(args, properties).value.total
            <= GetProperties(args, properties).value.totalPages * GetProperties(args, properties).value.limit
  {
    var r := GetProperties(args, properties).value;
    AnswerIsFilteredPage(args, properties);
    PageAtMostLimit(FilteredFor(args, properties), r.page, r.limit);
    TotalPagesIsCeiling(r.total, r.limit);
  }

  /** The total does not depend on which page is asked for. */
  lemma TotalIgnoresPage(args: map<string, string>, properties: seq<Property>, p1: string, p2: string)
    requires GetProperties(args["page" := p1], properties).Ok?
    requires GetProperties(args["page" := p2], properties).Ok?
    ensures GetProperties(args["page" := p1], properties).value.total
         == GetProperties(args["page" := p2], properties).value.total
    ensures GetProperties(args["page" := p1], properties).value.totalPages
         == GetProperties(args["page" := p2], properties).value.totalPages
  {
    var a1, a2 := args["page" := p1], args["page" := p2];
    assert TextArg(a1, "search", "") == TextArg(a2, "search", "");
    assert TextArg(a1, "status", "all") == TextArg(a2, "status", "all");
    assert TextArg(a1, "source", "all") == TextArg(a2, "source", "all");
    assert IntArg(a1, "limit", 20) == IntArg(a2, "limit", 20);
  }
}
