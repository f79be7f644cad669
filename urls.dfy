/** The request URLs the five tools send to Open Library. Percent-encoding
    is a library detail: the two encoders the source uses
    (`URLSearchParams`' form encoding and `encodeURIComponent`) are
    parameters. */
module Urls {
  import opened Wrappers
  import opened Js
  import opened Schema

  const BASE := "https://openlibrary.org"

  // ---------------------------------------------------------------------
  // Cancelling common parts of strings

  lemma PrefixCancel(a: string, x: string, y: string)
    requires a + x == a + y
    ensures x == y
  {
    assert x == (a + x)[|a|..];
  }

  lemma SuffixCancel(x: string, y: string, c: string)
    requires x + c == y + c
    ensures x == y
  {
    assert x == (x + c)[..|x|];
    assert y == (y + c)[..|y|];
  }

  // ---------------------------------------------------------------------
  // get_book

  predicate StartsWithSlash(key: string) {
    |key| > 0 && key[0] == '/'
  }

  /** `get_book`: a key that starts with "/" is used as the path itself,
      anything else is taken for an ISBN. */
  function BookUrl(key: string): (url: string)
    ensures StartsWithSlash(key) ==> url == BASE + key + ".json"
    ensures !StartsWithSlash(key) ==> url == BASE + "/isbn/" + key + ".json"
  {
    var path := if StartsWithSlash(key) then key else "/isbn/" + key;
    BASE + path + ".json"
  }

  /** Two keys of the same kind never share a URL. */
  lemma BookUrlInjective(k1: string, k2: string)
    requires StartsWithSlash(k1) == StartsWithSlash(k2)
    requires BookUrl(k1) == BookUrl(k2)
    ensures k1 == k2
  {
    var p1 := if StartsWithSlash(k1) then k1 else "/isbn/" + k1;
    var p2 := if StartsWithSlash(k2) then k2 else "/isbn/" + k2;
    assert BookUrl(k1) == BASE + (p1 + ".json");
    assert BookUrl(k2) == BASE + (p2 + ".json");
    PrefixCancel(BASE, p1 + ".json", p2 + ".json");
    SuffixCancel(p1, p2, ".json");
    if !StartsWithSlash(k1) {
      PrefixCancel("/isbn/", k1, k2);
    }
  }

  /** The two kinds of key meet in one place: the key "/isbn/X" and the bare
      ISBN "X" fetch the same document. */
  lemma BookUrlIsbnAlias(isbn: string)
    requires !StartsWithSlash(isbn)
    ensures BookUrl("/isbn/" + isbn) == BookUrl(isbn)
  {
  }

  /** The example key of the tool's description, and a bare ISBN. */
  lemma BookUrlExamples()
    ensures BookUrl("/works/OL45883W") == "https://openlibrary.org/works/OL45883W.json"
    ensures BookUrl("9780140328721") == "https://openlibrary.org/isbn/9780140328721.json"
  {
  }

  // ---------------------------------------------------------------------
  // search_books: URLSearchParams

  datatype Param = Param(name: string, value: string)

  /** How many parameters are called `name`. */
  function Count(ps: seq<Param>, name: string): nat {
    if ps == [] then 0 else (if ps[0].name == name then 1 else 0) + Count(ps[1..], name)
  }

  /** The parameters not called `name`, in order. */
  function Without(ps: seq<Param>, name: string): seq<Param> {
    if ps == [] then []
    else if ps[0].name == name then Without(ps[1..], name)
    else [ps[0]] + Without(ps[1..], name)
  }

  /** `URLSearchParams.set(name, value)`: the first parameter called `name`
      takes the new value and the others are dropped; when there is none,
      the pair is appended. */
  function SetParam(ps: seq<Param>, name: string, value: string): (r: seq<Param>)
    ensures Count(r, name) == 1 && Param(name, value) in r
    ensures forall i :: 0 <= i < |r| && r[i].name == name ==> r[i].value == value
    ensures Without(r, name) == Without(ps, name)
    ensures Count(ps, name) == 0 ==> r == ps + [Param(name, value)]
  {
    if ps == [] then [Param(name, value)]
    else if ps[0].name == name then
      WithoutRemoves(ps[1..], name);
      [Param(name, value)] + Without(ps[1..], name)
    else [ps[0]] + SetParam(ps[1..], name, value)
  }

  lemma {:induction false} WithoutRemoves(ps: seq<Param>, name: string)
    ensures Count(Without(ps, name), name) == 0
    ensures Without(Without(ps, name), name) == Without(ps, name)
    ensures forall i :: 0 <= i < |Without(ps, name)| ==> Without(ps, name)[i].name != name
  {
    if ps != [] {
      WithoutRemoves(ps[1..], name);
      if ps[0].name != name {
        var w := Without(ps[1..], name);
        assert ([ps[0]] + w)[1..] == w;
      }
    }
  }

  /** The parameters `search_books` sends: `q` and `limit` always, then
      `sort` through `set` when one was given. */
  function SearchBooksParams(a: SearchBooksArgs): (ps: seq<Param>)
    ensures |ps| >= 2 && ps[0] == Param("q", a.query) && ps[1] == Param("limit", Decimal(a.limit))
    ensures Count(ps, "sort") == (if a.sort.Some? then 1 else 0)
    ensures a.sort.Some? ==> ps == [ps[0], ps[1], Param("sort", SortName(a.sort.value))]
    ensures a.sort.None? ==> |ps| == 2
  {
    var p := [Param("q", a.query), Param("limit", Decimal(a.limit))];
    assert Count(p, "sort") == 0 by {
      assert p[1..] == [p[1]] && p[1..][1..] == [];
      assert "q" != "sort" && "limit" != "sort";
      assert Count(p[1..], "sort") == 0;
    }
    if a.sort.Some? then SetParam(p, "sort", SortName(a.sort.value)) else p
  }

  /** `URLSearchParams.toString()`: each pair as `name=value`, both
      form-encoded by `enc`, joined by "&". */
  function FormEncode(ps: seq<Param>, enc: string -> string): (r: string)
    ensures ps == [] ==> r == ""
    ensures ps != [] ==> enc(ps[0].name) + "=" + enc(ps[0].value) <= r
  {
    Join(seq(|ps|, i requires 0 <= i < |ps| => enc(ps[i].name) + "=" + enc(ps[i].value)), "&")
  }

  const SEARCH_BOOKS := BASE + "/search.json?"

  /** `search_books`: with an encoder that escapes "&" and "=", the query
      string reads back as `q`, `limit` and, when given, `sort`, in that
      order. */
  function SearchBooksUrl(a: SearchBooksArgs, enc: string -> string): (r: string)
    ensures SEARCH_BOOKS <= r
    ensures (forall t :: '&' !in enc(t) && '=' !in enc(t)) ==>
              ParseForm(r[|SEARCH_BOOKS|..])
              == [Param(enc("q"), enc(a.query)), Param(enc("limit"), enc(Decimal(a.limit)))]
                 + (if a.sort.Some? then [Param(enc("sort"), enc(SortName(a.sort.value)))] else [])
  {
    var r := SEARCH_BOOKS + FormEncode(SearchBooksParams(a), enc);
    assert r[|SEARCH_BOOKS|..] == FormEncode(SearchBooksParams(a), enc);
    SearchBooksQueryReadsBack(a, enc);
    r
  }

  lemma SearchBooksQueryReadsBack(a: SearchBooksArgs, enc: string -> string)
    ensures (forall t :: '&' !in enc(t) && '=' !in enc(t)) ==>
              ParseForm(FormEncode(SearchBooksParams(a), enc))
              == [Param(enc("q"), enc(a.query)), Param(enc("limit"), enc(Decimal(a.limit)))]
                 + (if a.sort.Some? then [Param(enc("sort"), enc(SortName(a.sort.value)))] else [])
  {
    if forall t :: '&' !in enc(t) && '=' !in enc(t) {
      FormRoundTrip(SearchBooksParams(a), enc);
    }
  }

  // ---------------------------------------------------------------------
  // Reading a query string back

  /** The pieces of `s` between occurrences of `c`. */
  function Split(s: string, c: char): (r: seq<string>)
    ensures |r| > 0
  {
    if s == [] then [""]
    else
      var rest := Split(s[1..], c);
      if s[0] == c then [""] + rest else [[s[0]] + rest[0]] + rest[1..]
  }

  /** A pair `name=value` cut at its first "=". */
  function SplitPair(s: string): Param {
    if s == [] then Param("", "")
    else if s[0] == '=' then Param("", s[1..])
    else
      var p := SplitPair(s[1..]);
      Param([s[0]] + p.name, p.value)
  }

  /** The encoded pairs of a query string. */
  function ParseForm(s: string): seq<Param> {
    var pieces := Split(s, '&');
    seq(|pieces|, i requires 0 <= i < |pieces| => SplitPair(pieces[i]))
  }

  lemma {:induction false} SplitNoSeparator(a: string, c: char)
    requires c !in a
    ensures Split(a, c) == [a]
  {
    if a != [] {
      SplitNoSeparator(a[1..], c);
      assert [a[0]] + a[1..] == a;
    }
  }

  lemma {:induction false} SplitFirst(a: string, c: char, t: string)
    requires c !in a
    ensures Split(a + [c] + t, c) == [a] + Split(t, c)
  {
    if a == [] {
      assert (a + [c] + t)[1..] == t;
    } else {
      assert (a + [c] + t)[1..] == a[1..] + [c] + t;
      SplitFirst(a[1..], c, t);
      assert [a[0]] + a[1..] == a;
    }
  }

  /** Splitting a join at its separator gives back the parts, when no part
      holds the separator. */
  lemma {:induction false} SplitJoin(parts: seq<string>, c: char)
    requires |parts| > 0
    requires forall i :: 0 <= i < |parts| ==> c !in parts[i]
    ensures Split(Join(parts, [c]), c) == parts
  {
    if |parts| == 1 {
      SplitNoSeparator(parts[0], c);
    } else {
      SplitJoin(parts[1..], c);
      SplitFirst(parts[0], c, Join(parts[1..], [c]));
      assert [parts[0]] + parts[1..] == parts;
    }
  }

  lemma {:induction false} SplitPairAt(name: string, value: string)
    requires '=' !in name
    ensures SplitPair(name + "=" + value) == Param(name, value)
  {
    if name == [] {
      assert (name + "=" + value)[1..] == value;
    } else {
      assert (name + "=" + value)[1..] == name[1..] + "=" + value;
      SplitPairAt(name[1..], value);
      assert [name[0]] + name[1..] == name;
    }
  }

  /** The query string `search_books` writes can be read back into the
      encoded pairs, in order, provided the encoder escapes "&" and "=" as
      form encoding does. */
  lemma FormRoundTrip(ps: seq<Param>, enc: string -> string)
    requires |ps| > 0
    requires forall i :: 0 <= i < |ps| ==> '&' !in enc(ps[i].name) && '=' !in enc(ps[i].name) && '&' !in enc(ps[i].value)
    ensures ParseForm(FormEncode(ps, enc)) == seq(|ps|, i requires 0 <= i < |ps| => Param(enc(ps[i].name), enc(ps[i].value)))
  {
    var pieces := seq(|ps|, i requires 0 <= i < |ps| => enc(ps[i].name) + "=" + enc(ps[i].value));
    forall i | 0 <= i < |ps| ensures '&' !in pieces[i] {
      assert pieces[i] == enc(ps[i].name) + "=" + enc(ps[i].value);
    }
    SplitJoin(pieces, '&');
    forall i | 0 <= i < |ps| ensures SplitPair(pieces[i]) == Param(enc(ps[i].name), enc(ps[i].value)) {
      SplitPairAt(enc(ps[i].name), enc(ps[i].value));
    }
  }

  // ---------------------------------------------------------------------
  // search_authors, get_author_works, get_trending

  const SEARCH_AUTHORS := BASE + "/search/authors.json?"

  /** `search_authors`: the query through `encodeURIComponent`, the limit as
      written. The query string reads back as `q` and `limit` when the
      encoded query holds no "&", as `encodeURIComponent` guarantees. */
  function SearchAuthorsUrl(a: SearchAuthorsArgs, uriEnc: string -> string): (r: string)
    ensures SEARCH_AUTHORS <= r
    ensures '&' !in uriEnc(a.query) ==>
              ParseForm(r[|SEARCH_AUTHORS|..]) == [Param("q", uriEnc(a.query)), Param("limit", Decimal(a.limit))]
    ensures ParseDecimal(LastValue(r)) == Some(a.limit)
  {
    LimitReadsBack(SEARCH_AUTHORS + "q=" + uriEnc(a.query) + "&", a.limit);
    SearchAuthorsQuery(uriEnc(a.query), a.limit);
    SEARCH_AUTHORS + "q=" + uriEnc(a.query) + "&" + ("limit=" + Decimal(a.limit))
  }

  lemma SearchAuthorsQuery(e: string, n: int)
    ensures SEARCH_AUTHORS <= SEARCH_AUTHORS + "q=" + e + "&" + ("limit=" + Decimal(n))
    ensures '&' !in e ==>
              ParseForm((SEARCH_AUTHORS + "q=" + e + "&" + ("limit=" + Decimal(n)))[|SEARCH_AUTHORS|..])
              == [Param("q", e), Param("limit", Decimal(n))]
  {
    var u := SEARCH_AUTHORS + "q=" + e + "&" + ("limit=" + Decimal(n));
    assert u[..|SEARCH_AUTHORS|] == SEARCH_AUTHORS;
    assert u[|SEARCH_AUTHORS|..] == "q" + "=" + e + "&" + "limit" + "=" + Decimal(n);
    if '&' !in e {
      ParseTwo("q", e, "limit", Decimal(n));
    }
  }

  /** The part of a `get_author_works` URL before its query string. */
  function AuthorWorksPath(authorKey: string): string {
    BASE + "/authors/" + authorKey + "/works.json?"
  }

  /** `get_author_works`: the author key is placed in the path unencoded,
      and the query string is the limit alone. */
  function AuthorWorksUrl(a: AuthorWorksArgs): (r: string)
    ensures AuthorWorksPath(a.authorKey) <= r
    ensures ParseForm(r[|AuthorWorksPath(a.authorKey)|..]) == [Param("limit", Decimal(a.limit))]
    ensures ParseDecimal(LastValue(r)) == Some(a.limit)
  {
    WithLimit(AuthorWorksPath(a.authorKey), a.limit);
    AuthorWorksPath(a.authorKey) + ("limit=" + Decimal(a.limit))
  }

  /** The part of a `get_trending` URL before its query string. */
  function TrendingPath(period: Period): string {
    BASE + "/trending/" + PeriodName(period) + ".json?"
  }

  /** `get_trending`: the period in the path, and the query string is the
      limit alone. */
  function TrendingUrl(a: TrendingArgs): (r: string)
    ensures TrendingPath(a.period) <= r
    ensures ParseForm(r[|TrendingPath(a.period)|..]) == [Param("limit", Decimal(a.limit))]
    ensures ParseDecimal(LastValue(r)) == Some(a.limit)
  {
    WithLimit(TrendingPath(a.period), a.limit);
    TrendingPath(a.period) + ("limit=" + Decimal(a.limit))
  }

  /** A query string of one pair reads back as that pair. */
  lemma ParseOne(n: string, v: string)
    requires '&' !in n && '=' !in n && '&' !in v
    ensures ParseForm(n + "=" + v) == [Param(n, v)]
  {
    SplitNoSeparator(n + "=" + v, '&');
    SplitPairAt(n, v);
  }

  /** A query string of two pairs reads back as those pairs, in order. */
  lemma ParseTwo(n1: string, v1: string, n2: string, v2: string)
    requires '&' !in n1 && '=' !in n1 && '&' !in v1
    requires '&' !in n2 && '=' !in n2 && '&' !in v2
    ensures ParseForm(n1 + "=" + v1 + "&" + n2 + "=" + v2) == [Param(n1, v1), Param(n2, v2)]
  {
    var first := n1 + "=" + v1;
    var second := n2 + "=" + v2;
    assert n1 + "=" + v1 + "&" + n2 + "=" + v2 == first + ['&'] + second;
    SplitFirst(first, '&', second);
    SplitNoSeparator(second, '&');
    SplitPairAt(n1, v1);
    SplitPairAt(n2, v2);
  }

  /** The text after the last "=". */
  function LastValue(s: string): (r: string)
    ensures '=' !in r
  {
    if s == [] then ""
    else if s[|s| - 1] == '=' then ""
    else LastValue(s[..|s| - 1]) + [s[|s| - 1]]
  }

  lemma {:induction false} LastValueAt(p: string, d: string)
    requires '=' !in d
    ensures LastValue(p + "=" + d) == d
  {
    var s := p + "=" + d;
    if d != [] {
      var d' := d[..|d| - 1];
      assert s[..|s| - 1] == p + "=" + d';
      LastValueAt(p, d');
      assert d' + [d[|d| - 1]] == d;
    }
  }

  lemma DecimalHasNoEquals(n: int)
    ensures '=' !in Decimal(n)
  {
  }

  /** A URL ending in `limit=` and a number keeps what comes before, its
      query after `q` is that one pair, and the number reads back from the
      text after the last "=". */
  lemma WithLimit(q: string, n: int)
    ensures q <= q + ("limit=" + Decimal(n))
    ensures ParseForm((q + ("limit=" + Decimal(n)))[|q|..]) == [Param("limit", Decimal(n))]
    ensures ParseDecimal(LastValue(q + ("limit=" + Decimal(n)))) == Some(n)
  {
    LimitQuery(q, n);
    LimitReadsBack(q, n);
  }

  lemma LimitQuery(q: string, n: int)
    ensures q <= q + ("limit=" + Decimal(n))
    ensures ParseForm((q + ("limit=" + Decimal(n)))[|q|..]) == [Param("limit", Decimal(n))]
  {
    var u := q + ("limit=" + Decimal(n));
    assert u[..|q|] == q;
    assert u[|q|..] == "limit" + "=" + Decimal(n);
    ParseOne("limit", Decimal(n));
  }

  /** The number after the last "=" reads back. */
  lemma LimitReadsBack(q: string, n: int)
    ensures ParseDecimal(LastValue(q + ("limit=" + Decimal(n)))) == Some(n)
  {
    assert q + ("limit=" + Decimal(n)) == (q + "limit") + "=" + Decimal(n);
    DecimalHasNoEquals(n);
    LastValueAt(q + "limit", Decimal(n));
    DecimalRoundTrip(n);
  }

  /** Distinct `get_author_works` requests have distinct URLs. */
  lemma AuthorWorksUrlInjective(a: AuthorWorksArgs, b: AuthorWorksArgs)
    requires AuthorWorksUrl(a) == AuthorWorksUrl(b)
    ensures a == b
  {
    assert a.limit == b.limit;
    var tail := "limit=" + Decimal(a.limit);
    SuffixCancel(AuthorWorksPath(a.authorKey), AuthorWorksPath(b.authorKey), tail);
    SuffixCancel(BASE + "/authors/" + a.authorKey, BASE + "/authors/" + b.authorKey, "/works.json?");
    PrefixCancel(BASE + "/authors/", a.authorKey, b.authorKey);
  }

  /** Distinct `get_trending` requests have distinct URLs. */
  lemma TrendingUrlInjective(a: TrendingArgs, b: TrendingArgs)
    requires TrendingUrl(a) == TrendingUrl(b)
    ensures a == b
  {
    assert a.limit == b.limit;
    var tail := "limit=" + Decimal(a.limit);
    SuffixCancel(TrendingPath(a.period), TrendingPath(b.period), tail);
    TrendingPathInjective(a.period, b.period);
  }

  lemma TrendingPathInjective(p1: Period, p2: Period)
    requires TrendingPath(p1) == TrendingPath(p2)
    ensures p1 == p2
  {
    var n1, n2 := PeriodName(p1), PeriodName(p2);
    SuffixCancel(BASE + "/trending/" + n1, BASE + "/trending/" + n2, ".json?");
    PrefixCancel(BASE + "/trending/", n1, n2);
    assert ParsePeriod(n1) == Some(p1);
  }

  /** A `search_authors` URL determines the limit and the encoded query. */
  lemma SearchAuthorsUrlDetermines(a: SearchAuthorsArgs, b: SearchAuthorsArgs, uriEnc: string -> string)
    requires SearchAuthorsUrl(a, uriEnc) == SearchAuthorsUrl(b, uriEnc)
    ensures a.limit == b.limit && uriEnc(a.query) == uriEnc(b.query)
  {
    assert a.limit == b.limit;
    var tail := "limit=" + Decimal(a.limit);
    var pa := SEARCH_AUTHORS + "q=" + uriEnc(a.query);
    var pb := SEARCH_AUTHORS + "q=" + uriEnc(b.query);
    SuffixCancel(pa + "&", pb + "&", tail);
    SuffixCancel(pa, pb, "&");
    PrefixCancel(SEARCH_AUTHORS + "q=", uriEnc(a.query), uriEnc(b.query));
  }
}
