/** The argument schemas the five tools declare, as validators: each takes
    the raw arguments of a call and yields the typed, defaulted request or
    the list of arguments that fail their schema. Validation happens before
    any request is made. */
module Schema {
  import opened Wrappers
  import opened Errors
  import opened Js

  /** The `sort` values `search_books` accepts. */
  datatype SortOrder = Relevance | New | Old | Rating | Editions

  function SortName(o: SortOrder): (name: string)
    ensures ParseSort(name) == Some(o)
  {
    match o
    case Relevance => "relevance"
    case New => "new"
    case Old => "old"
    case Rating => "rating"
    case Editions => "editions"
  }

  /** Membership in the `sort` enumeration. */
  function ParseSort(s: string): (r: Option<SortOrder>)
    ensures r.Some? <==> s in {"relevance", "new", "old", "rating", "editions"}
  {
    if s == "relevance" then Some(Relevance)
    else if s == "new" then Some(New)
    else if s == "old" then Some(Old)
    else if s == "rating" then Some(Rating)
    else if s == "editions" then Some(Editions)
    else None
  }

  /** Every accepted name is the name of the order it parses to. */
  lemma ParseSortName(s: string)
    requires ParseSort(s).Some?
    ensures SortName(ParseSort(s).value) == s
  {
  }

  /** The periods `get_trending` accepts. */
  datatype Period = Daily | Weekly | Monthly | Yearly

  function PeriodName(p: Period): (name: string)
    ensures ParsePeriod(name) == Some(p)
  {
    match p
    case Daily => "daily"
    case Weekly => "weekly"
    case Monthly => "monthly"
    case Yearly => "yearly"
  }

  /** Membership in the `type` enumeration of `get_trending`. */
  function ParsePeriod(s: string): (r: Option<Period>)
    ensures r.Some? <==> s in {"daily", "weekly", "monthly", "yearly"}
  {
    if s == "daily" then Some(Daily)
    else if s == "weekly" then Some(Weekly)
    else if s == "monthly" then Some(Monthly)
    else if s == "yearly" then Some(Yearly)
    else None
  }

  // ---------------------------------------------------------------------
  // One argument

  /** The value passed for `name`, `undefined` when it was left out. */
  function Arg(args: map<string, Json>, name: string): Json {
    if name in args then args[name] else Undefined
  }

  /** `z.string()`: a required string. */
  function StringArg(v: Json): (r: Option<string>)
    ensures r.Some? <==> v.Str?
    ensures r.Some? ==> v == Str(r.value)
  {
    if v.Str? then Some(v.s) else None
  }

  /** `z.number().min(lo).max(hi).default(dflt)`: `dflt` when left out,
      otherwise a number in `lo..hi`. */
  function LimitArg(v: Json, lo: int, hi: int, dflt: int): (r: Option<int>)
    requires lo <= dflt <= hi
    ensures v == Undefined ==> r == Some(dflt)
    ensures v != Undefined ==> (r.Some? <==> v.Num? && lo <= v.n <= hi)
    ensures r.Some? ==> lo <= r.value <= hi
    ensures r.Some? && v != Undefined ==> v == Num(r.value)
  {
    match v
    case Undefined => Some(dflt)
    case Num(n) => if lo <= n <= hi then Some(n) else None
    case _ => None
  }

  /** `z.enum([...sort orders]).optional()`: `Some(None)` when left out. */
  function SortArg(v: Json): (r: Option<Option<SortOrder>>)
    ensures v == Undefined ==> r == Some(None)
    ensures v != Undefined ==> (r.Some? <==> v.Str? && ParseSort(v.s).Some?)
    ensures r.Some? && r.value.Some? ==> v == Str(SortName(r.value.value))
    ensures r.Some? && r.value.None? ==> v == Undefined
  {
    match v
    case Undefined => Some(None)
    case Str(s) =>
      var o := ParseSort(s);
      if o.Some? then (ParseSortName(s); Some(o)) else None
    case _ => None
  }

  /** `z.enum([...periods]).default("daily")`. */
  function PeriodArg(v: Json): (r: Option<Period>)
    ensures v == Undefined ==> r == Some(Daily)
    ensures v != Undefined ==> (r.Some? <==> v.Str? && ParsePeriod(v.s).Some?)
    ensures r.Some? && v != Undefined ==> v == Str(PeriodName(r.value))
  {
    match v
    case Undefined => Some(Daily)
    case Str(s) => ParsePeriod(s)
    case _ => None
  }

  /** `names` lists some of the declared names `decl`, each at most once,
      in the order they are declared. */
  predicate InDeclarationOrder(names: seq<string>, decl: seq<string>)
    decreases |decl|
  {
    if names == [] then true
    else if decl == [] then false
    else if names[0] == decl[0] then InDeclarationOrder(names[1..], decl[1..])
    else InDeclarationOrder(names, decl[1..])
  }

  /** `[name]` when the argument fails its schema. */
  function Flag(name: string, ok: bool): seq<string> {
    if ok then [] else [name]
  }

  // ---------------------------------------------------------------------
  // The five tools' arguments

  datatype SearchBooksArgs = SearchBooksArgs(query: string, limit: int, sort: Option<SortOrder>)
  datatype GetBookArgs = GetBookArgs(key: string)
  datatype SearchAuthorsArgs = SearchAuthorsArgs(query: string, limit: int)
  datatype AuthorWorksArgs = AuthorWorksArgs(authorKey: string, limit: int)
  datatype TrendingArgs = TrendingArgs(period: Period, limit: int)

  /** `search_books`: query required, limit 1..100 (default 10), sort an
      optional member of its enumeration. */
  function ParseSearchBooks(args: map<string, Json>): (r: Result<SearchBooksArgs, ToolError>)
    ensures r.Ok? <==> Arg(args, "query").Str?
                       && (Arg(args, "limit") == Undefined || (Arg(args, "limit").Num? && 1 <= Arg(args, "limit").n <= 100))
                       && SortArg(Arg(args, "sort")).Some?
    ensures r.Ok? ==> Arg(args, "query") == Str(r.value.query) && 1 <= r.value.limit <= 100
    ensures r.Ok? ==> r.value.limit == (if Arg(args, "limit") == Undefined then 10 else Arg(args, "limit").n)
    ensures r.Ok? ==> (r.value.sort.Some? <==> Arg(args, "sort") != Undefined)
    ensures r.Ok? && r.value.sort.Some? ==> Arg(args, "sort") == Str(SortName(r.value.sort.value))
    ensures r.Err? ==> r.error.InvalidArguments? && r.error.fields != []
                       && (forall f :: f in r.error.fields ==> f in {"query", "limit", "sort"})
                       && InDeclarationOrder(r.error.fields, ["query", "limit", "sort"])
                       && ("query" in r.error.fields <==> !Arg(args, "query").Str?)
                       && ("limit" in r.error.fields <==> LimitArg(Arg(args, "limit"), 1, 100, 10).None?)
                       && ("sort" in r.error.fields <==> SortArg(Arg(args, "sort")).None?)
  {
    var q := StringArg(Arg(args, "query"));
    var l := LimitArg(Arg(args, "limit"), 1, 100, 10);
    var s := SortArg(Arg(args, "sort"));
    if q.Some? && l.Some? && s.Some? then Ok(SearchBooksArgs(q.value, l.value, s.value))
    else Err(InvalidArguments(Flag("query", q.Some?) + Flag("limit", l.Some?) + Flag("sort", s.Some?)))
  }

  /** `get_book`: key required. */
  function ParseGetBook(args: map<string, Json>): (r: Result<GetBookArgs, ToolError>)
    ensures r.Ok? <==> Arg(args, "key").Str?
    ensures r.Ok? ==> Arg(args, "key") == Str(r.value.key)
    ensures r.Err? ==> r.error == InvalidArguments(["key"])
  {
    var k := StringArg(Arg(args, "key"));
    if k.Some? then Ok(GetBookArgs(k.value)) else Err(InvalidArguments(["key"]))
  }

  /** `search_authors`: query required, limit 1..100 (default 10). */
  function ParseSearchAuthors(args: map<string, Json>): (r: Result<SearchAuthorsArgs, ToolError>)
    ensures r.Ok? <==> Arg(args, "query").Str? && LimitArg(Arg(args, "limit"), 1, 100, 10).Some?
    ensures r.Ok? ==> Arg(args, "query") == Str(r.value.query) && 1 <= r.value.limit <= 100
    ensures r.Ok? ==> r.value.limit == (if Arg(args, "limit") == Undefined then 10 else Arg(args, "limit").n)
    ensures r.Err? ==> r.error.InvalidArguments? && r.error.fields != []
                       && (forall f :: f in r.error.fields ==> f in {"query", "limit"})
                       && InDeclarationOrder(r.error.fields, ["query", "limit"])
                       && ("query" in r.error.fields <==> !Arg(args, "query").Str?)
                       && ("limit" in r.error.fields <==> LimitArg(Arg(args, "limit"), 1, 100, 10).None?)
  {
    var q := StringArg(Arg(args, "query"));
    var l := LimitArg(Arg(args, "limit"), 1, 100, 10);
    if q.Some? && l.Some? then Ok(SearchAuthorsArgs(q.value, l.value))
    else Err(InvalidArguments(Flag("query", q.Some?) + Flag("limit", l.Some?)))
  }

  /** `get_author_works`: authorKey required, limit 1..100 (default 20). */
  function ParseAuthorWorks(args: map<string, Json>): (r: Result<AuthorWorksArgs, ToolError>)
    ensures r.Ok? <==> Arg(args, "authorKey").Str? && LimitArg(Arg(args, "limit"), 1, 100, 20).Some?
    ensures r.Ok? ==> Arg(args, "authorKey") == Str(r.value.authorKey) && 1 <= r.value.limit <= 100
    ensures r.Ok? ==> r.value.limit == (if Arg(args, "limit") == Undefined then 20 else Arg(args, "limit").n)
    ensures r.Err? ==> r.error.InvalidArguments? && r.error.fields != []
                       && (forall f :: f in r.error.fields ==> f in {"authorKey", "limit"})
                       && InDeclarationOrder(r.error.fields, ["authorKey", "limit"])
                       && ("authorKey" in r.error.fields <==> !Arg(args, "authorKey").Str?)
                       && ("limit" in r.error.fields <==> LimitArg(Arg(args, "limit"), 1, 100, 20).None?)
  {
    var k := StringArg(Arg(args, "authorKey"));
    var l := LimitArg(Arg(args, "limit"), 1, 100, 20);
    if k.Some? && l.Some? then Ok(AuthorWorksArgs(k.value, l.value))
    else Err(InvalidArguments(Flag("authorKey", k.Some?) + Flag("limit", l.Some?)))
  }

  /** `get_trending`: type a member of its enumeration (default daily),
      limit 1..50 (default 10). */
  function ParseTrending(args: map<string, Json>): (r: Result<TrendingArgs, ToolError>)
    ensures r.Ok? <==> PeriodArg(Arg(args, "type")).Some? && LimitArg(Arg(args, "limit"), 1, 50, 10).Some?
    ensures r.Ok? ==> 1 <= r.value.limit <= 50
    ensures r.Ok? ==> r.value.limit == (if Arg(args, "limit") == Undefined then 10 else Arg(args, "limit").n)
    ensures r.Ok? ==> (if Arg(args, "type") == Undefined then r.value.period == Daily
                       else Arg(args, "type") == Str(PeriodName(r.value.period)))
    ensures r.Err? ==> r.error.InvalidArguments? && r.error.fields != []
                       && (forall f :: f in r.error.fields ==> f in {"type", "limit"})
                       && InDeclarationOrder(r.error.fields, ["type", "limit"])
                       && ("type" in r.error.fields <==> PeriodArg(Arg(args, "type")).None?)
                       && ("limit" in r.error.fields <==> LimitArg(Arg(args, "limit"), 1, 50, 10).None?)
  {
    var p := PeriodArg(Arg(args, "type"));
    var l := LimitArg(Arg(args, "limit"), 1, 50, 10);
    if p.Some? && l.Some? then Ok(TrendingArgs(p.value, l.value))
    else Err(InvalidArguments(Flag("type", p.Some?) + Flag("limit", l.Some?)))
  }

  /** A limit of 150 is refused by `search_books`; a missing one is 10. */
  lemma SearchBooksLimitExamples(query: string)
    ensures ParseSearchBooks(map["query" := Str(query), "limit" := Num(150)]) == Err(InvalidArguments(["limit"]))
    ensures ParseSearchBooks(map["query" := Str(query)]) == Ok(SearchBooksArgs(query, 10, None))
  {
    var args := map["query" := Str(query), "limit" := Num(150)];
    assert Arg(args, "sort") == Undefined;
    assert Flag("query", true) + Flag("limit", false) + Flag("sort", true) == ["limit"];
  }

  /** `get_trending` refuses the period "hourly"; a missing one is daily. */
  lemma TrendingPeriodExamples()
    ensures ParseTrending(map["type" := Str("hourly")]) == Err(InvalidArguments(["type"]))
    ensures ParseTrending(map[]) == Ok(TrendingArgs(Daily, 10))
  {
    assert ParsePeriod("hourly") == None;
    assert Flag("type", false) + Flag("limit", true) == ["type"];
  }
}
