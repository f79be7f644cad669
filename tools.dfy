/** The five tool handlers: validate the arguments, build the URL, pass it
    through the pacing gate, reshape the answer. An argument error stops
    the call before any request is made; every other error propagates
    unchanged. */
module Tools {
  import opened Wrappers
  import opened Errors
  import opened Js
  import opened Schema
  import opened Urls
  import opened Projections
  import opened Fetcher

  /** The reshaping applied to a successful fetch; a failed fetch is the
      result. */
  function AndThen<T>(d: Result<Json, ToolError>, f: Json -> Result<T, ToolError>): (r: Result<T, ToolError>)
    ensures d.Err? ==> r == Err(d.error)
    ensures d.Ok? ==> r == f(d.value)
  {
    if d.Err? then Err(d.error) else f(d.value)
  }

  method SearchBooks(p: Pacer, args: map<string, Json>, formEnc: string -> string,
                     now: int, later: int, res: Response) returns (r: Result<SearchBooksResult, ToolError>)
    requires p.Valid()
    modifies p
    ensures p.Valid()
    ensures ParseSearchBooks(args).Err? ==> unchanged(p) && r == Err(ParseSearchBooks(args).error)
    ensures ParseSearchBooks(args).Ok? ==>
              p.sent == old(p.sent) + [SearchBooksUrl(ParseSearchBooks(args).value, formEnc)]
              && p.starts == old(p.starts) + [later]
              && r == AndThen(CheckResponse(res), ProjectSearchBooks)
    ensures old(p.Paced()) && later >= now + Wait(old(p.last), now) ==> p.Paced()
  {
    var a := ParseSearchBooks(args);
    if a.Err? {
      return Err(a.error);
    }
    var d := p.Fetch(SearchBooksUrl(a.value, formEnc), now, later, res);
    r := AndThen(d, ProjectSearchBooks);
  }

  method GetBook(p: Pacer, args: map<string, Json>, now: int, later: int, res: Response)
    returns (r: Result<Json, ToolError>)
    requires p.Valid()
    modifies p
    ensures p.Valid()
    ensures ParseGetBook(args).Err? ==> unchanged(p) && r == Err(ParseGetBook(args).error)
    ensures ParseGetBook(args).Ok? ==>
              p.sent == old(p.sent) + [BookUrl(ParseGetBook(args).value.key)]
              && p.starts == old(p.starts) + [later]
              && r == CheckResponse(res)
    ensures old(p.Paced()) && later >= now + Wait(old(p.last), now) ==> p.Paced()
  {
    var a := ParseGetBook(args);
    if a.Err? {
      return Err(a.error);
    }
    r := p.Fetch(BookUrl(a.value.key), now, later, res);
  }

  method SearchAuthors(p: Pacer, args: map<string, Json>, uriEnc: string -> string,
                       now: int, later: int, res: Response) returns (r: Result<SearchAuthorsResult, ToolError>)
    requires p.Valid()
    modifies p
    ensures p.Valid()
    ensures ParseSearchAuthors(args).Err? ==> unchanged(p) && r == Err(ParseSearchAuthors(args).error)
    ensures ParseSearchAuthors(args).Ok? ==>
              p.sent == old(p.sent) + [SearchAuthorsUrl(ParseSearchAuthors(args).value, uriEnc)]
              && p.starts == old(p.starts) + [later]
              && r == AndThen(CheckResponse(res), ProjectSearchAuthors)
    ensures old(p.Paced()) && later >= now + Wait(old(p.last), now) ==> p.Paced()
  {
    var a := ParseSearchAuthors(args);
    if a.Err? {
      return Err(a.error);
    }
    var d := p.Fetch(SearchAuthorsUrl(a.value, uriEnc), now, later, res);
    r := AndThen(d, ProjectSearchAuthors);
  }

  method GetAuthorWorks(p: Pacer, args: map<string, Json>, now: int, later: int, res: Response)
    returns (r: Result<AuthorWorksResult, ToolError>)
    requires p.Valid()
    modifies p
    ensures p.Valid()
    ensures ParseAuthorWorks(args).Err? ==> unchanged(p) && r == Err(ParseAuthorWorks(args).error)
    ensures ParseAuthorWorks(args).Ok? ==>
              p.sent == old(p.sent) + [AuthorWorksUrl(ParseAuthorWorks(args).value)]
              && p.starts == old(p.starts) + [later]
              && r == AndThen(CheckResponse(res), ProjectAuthorWorks)
    ensures old(p.Paced()) && later >= now + Wait(old(p.last), now) ==> p.Paced()
  {
    var a := ParseAuthorWorks(args);
    if a.Err? {
      return Err(a.error);
    }
    var d := p.Fetch(AuthorWorksUrl(a.value), now, later, res);
    r := AndThen(d, ProjectAuthorWorks);
  }

  method GetTrending(p: Pacer, args: map<string, Json>, now: int, later: int, res: Response)
    returns (r: Result<Option<seq<TrendingBook>>, ToolError>)
    requires p.Valid()
    modifies p
    ensures p.Valid()
    ensures ParseTrending(args).Err? ==> unchanged(p) && r == Err(ParseTrending(args).error)
    ensures ParseTrending(args).Ok? ==>
              p.sent == old(p.sent) + [TrendingUrl(ParseTrending(args).value)]
              && p.starts == old(p.starts) + [later]
              && r == AndThen(CheckResponse(res), ProjectTrending)
    ensures old(p.Paced()) && later >= now + Wait(old(p.last), now) ==> p.Paced()
  {
    var a := ParseTrending(args);
    if a.Err? {
      return Err(a.error);
    }
    var d := p.Fetch(TrendingUrl(a.value), now, later, res);
    r := AndThen(d, ProjectTrending);
  }

  /** Two calls in sequence, the second arriving straight after the first:
      each wait is honoured, so the second request starts at least 200 ms
      after the first, whatever either answer was. */
  method TwoLookups(p: Pacer, key1: string, key2: string, t1: int, t2: int, t3: int, t4: int,
                    res1: Response, res2: Response)
    returns (r1: Result<Json, ToolError>, r2: Result<Json, ToolError>)
    requires p.Valid() && p.Paced()
    requires t2 >= t1 + Wait(p.last, t1)
    requires t4 >= t3 + Wait(t2, t3)
    modifies p
    ensures p.Valid() && p.Paced()
    ensures |p.starts| == |old(p.starts)| + 2
    ensures p.starts[|p.starts| - 2] + RATE_LIMIT_MS <= p.starts[|p.starts| - 1]
  {
    r1 := GetBook(p, map["key" := Str(key1)], t1, t2, res1);
    r2 := GetBook(p, map["key" := Str(key2)], t3, t4, res2);
    assert p.starts == old(p.starts) + [t2, t4];
    assert Spaced([0] + p.starts);
    assert ([0] + p.starts)[|p.starts| - 1] == p.starts[|p.starts| - 2];
  }
}
