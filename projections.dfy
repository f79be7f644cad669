/** The reshaping each handler applies to the decoded response: a fixed set of
    fields copied (and renamed) from every raw record, author names joined,
    the first ISBN, at most five subjects, and a cover-image URL derived from
    the cover id. Missing fields come out absent (`undefined`); only reading
    a field of `null`/`undefined`, or calling `join`/`slice`/`map` on a value
    without that method, fails the call. */
module Projections {
  import opened Wrappers
  import opened Errors
  import opened Js

  const COVER_PREFIX := "https://covers.openlibrary.org/b/id/"
  const COVER_SUFFIX := "-M.jpg"

  // ---------------------------------------------------------------------
  // Cover URL, shared by search_books and get_trending

  /** `cover_i ? "https://covers.openlibrary.org/b/id/${cover_i}-M.jpg" : null`;
      the template throws on an id that does not convert to a string. */
  function CoverUrl(coverId: Json): (r: Result<Json, ToolError>)
    ensures r.Err? <==> Truthy(coverId) && !Stringable(coverId)
    ensures r.Err? ==> r.error == TypeError
    ensures !Truthy(coverId) ==> r == Ok(Null)
    ensures r.Ok? ==> (r.value.Str? <==> Truthy(coverId))
    ensures r.Ok? && r.value.Str? ==>
              |r.value.s| >= |COVER_PREFIX| + |COVER_SUFFIX|
              && r.value.s[..|COVER_PREFIX|] == COVER_PREFIX
              && r.value.s[|r.value.s| - |COVER_SUFFIX|..] == COVER_SUFFIX
  {
    if !Truthy(coverId) then Ok(Null)
    else if !Stringable(coverId) then Err(TypeError)
    else Ok(Str(COVER_PREFIX + DisplayString(coverId) + COVER_SUFFIX))
  }

  /** Reads the numeric cover id back out of a cover URL. */
  function CoverIdOf(url: string): (r: Option<int>)
    ensures r.Some? ==> |url| >= |COVER_PREFIX| + |COVER_SUFFIX|
  {
    if |url| >= |COVER_PREFIX| + |COVER_SUFFIX|
       && url[..|COVER_PREFIX|] == COVER_PREFIX
       && url[|url| - |COVER_SUFFIX|..] == COVER_SUFFIX
    then ParseDecimal(url[|COVER_PREFIX|..|url| - |COVER_SUFFIX|])
    else None
  }

  /** A numeric cover id yields a URL exactly when it is not 0, and that URL
      names the id it came from. */
  lemma CoverUrlOfNumber(n: int)
    ensures CoverUrl(Num(n)) == Ok(if n == 0 then Null else Str(COVER_PREFIX + Decimal(n) + COVER_SUFFIX))
    ensures n != 0 ==> CoverIdOf(CoverUrl(Num(n)).value.s) == Some(n)
  {
  }

  /** Cover id 12345 gives the medium-size image of that id. */
  lemma CoverUrlExample()
    ensures CoverUrl(Num(12345)) == Ok(Str("https://covers.openlibrary.org/b/id/12345-M.jpg"))
  {
    CoverUrlOfNumber(12345);
    DecimalOf12345();
    assert COVER_PREFIX + "12345" + COVER_SUFFIX == "https://covers.openlibrary.org/b/id/12345-M.jpg";
  }

  /** The text of id 12345. */
  lemma DecimalOf12345()
    ensures Decimal(12345) == "12345"
  {
  }

  /** A truthy id that is not a number still yields a URL: an empty array
      renders as the empty string, leaving no id between prefix and suffix. */
  lemma CoverUrlOfEmptyArray()
    ensures CoverUrl(Arr([])) == Ok(Str(COVER_PREFIX + COVER_SUFFIX))
    ensures CoverIdOf(CoverUrl(Arr([])).value.s) == None
  {
  }

  /** An object id with its own `toString` field cannot be rendered into
      the template, so the record is refused. */
  lemma CoverUrlOfOwnToString(fields: map<string, Json>)
    requires "toString" in fields
    ensures CoverUrl(Obj(fields)) == Err(TypeError)
  {
  }

  // ---------------------------------------------------------------------
  // Records

  /** One entry of `search_books`. */
  datatype BookSummary = BookSummary(
    title: Json, author: Json, firstPublished: Json, isbn: Json,
    subjects: Json, editionCount: Json, key: Json, coverUrl: Json)

  /** One entry of `search_authors`. */
  datatype AuthorSummary = AuthorSummary(name: Json, key: Json, workCount: Json, topWork: Json, birthDate: Json)

  /** One entry of `get_author_works`. */
  datatype WorkSummary = WorkSummary(title: Json, key: Json, firstPublished: Json)

  /** One entry of `get_trending`. */
  datatype TrendingBook = TrendingBook(title: Json, author: Json, key: Json, coverUrl: Json)

  /** The texts of an array of strings. */
  function Texts(items: seq<Json>): (r: seq<string>)
    requires forall i :: 0 <= i < |items| ==> items[i].Str?
    ensures |r| == |items| && forall i :: 0 <= i < |items| ==> items[i] == Str(r[i])
  {
    seq(|items|, i requires 0 <= i < |items| => items[i].s)
  }

  /** A raw `search_books` document, reduced. */
  function ProjectBook(b: Json): (r: Result<BookSummary, ToolError>)
    ensures r.Ok? <==> !Nullish(b)
                       && (Nullish(Field(b, "author_name")) || (Field(b, "author_name").Arr? && Stringable(Field(b, "author_name"))))
                       && (Nullish(Field(b, "subject")) || Field(b, "subject").Arr? || Field(b, "subject").Str?)
                       && (!Truthy(Field(b, "cover_i")) || Stringable(Field(b, "cover_i")))
    ensures r.Err? ==> r.error == TypeError
    ensures r.Ok? ==> r.value.title == Field(b, "title") && r.value.key == Field(b, "key")
                      && r.value.firstPublished == Field(b, "first_publish_year")
                      && r.value.editionCount == Field(b, "edition_count")
    // the names, joined with ", "; absent when there are none
    ensures r.Ok? && Nullish(Field(b, "author_name")) ==> r.value.author == Undefined
    ensures r.Ok? && Field(b, "author_name").Arr?
            && (forall i :: 0 <= i < |Field(b, "author_name").items| ==> Field(b, "author_name").items[i].Str?)
            ==> r.value.author == Str(Join(Texts(Field(b, "author_name").items), ", "))
    // the first ISBN, absent when there is none
    ensures r.Ok? && Field(b, "isbn").Arr? && Field(b, "isbn").items != [] ==> r.value.isbn == Field(b, "isbn").items[0]
    ensures r.Ok? && (Nullish(Field(b, "isbn")) || Field(b, "isbn") == Arr([])) ==> r.value.isbn == Undefined
    ensures r.Ok? && Field(b, "isbn").Str? && Field(b, "isbn").s != "" ==> r.value.isbn == Str([Field(b, "isbn").s[0]])
    ensures r.Ok? ==> r.value.isbn == OptionalFirst(Field(b, "isbn"))
    // the first five subjects, or all of them when there are fewer
    ensures r.Ok? && Field(b, "subject").Arr? ==>
              r.value.subjects.Arr? && r.value.subjects.items <= Field(b, "subject").items
              && |r.value.subjects.items| == if |Field(b, "subject").items| < 5 then |Field(b, "subject").items| else 5
    // a string subject is cut to its first five characters the same way
    ensures r.Ok? && Field(b, "subject").Str? ==>
              r.value.subjects.Str? && r.value.subjects.s <= Field(b, "subject").s
              && |r.value.subjects.s| == if |Field(b, "subject").s| < 5 then |Field(b, "subject").s| else 5
    ensures r.Ok? && Nullish(Field(b, "subject")) ==> r.value.subjects == Undefined
    ensures r.Ok? ==> CoverUrl(Field(b, "cover_i")) == Ok(r.value.coverUrl)
  {
    if Nullish(b) then Err(TypeError)
    else
      var names := Field(b, "author_name");
      var author :- OptionalJoin(names, ", ");
      var subjects :- OptionalSlice(Field(b, "subject"), 5);
      var coverUrl :- CoverUrl(Field(b, "cover_i"));
      assert names.Arr? && (forall i :: 0 <= i < |names.items| ==> names.items[i].Str?) ==>
               Texts(names.items) == seq(|names.items|, i requires 0 <= i < |names.items| => names.items[i].s);
      Ok(BookSummary(
        Field(b, "title"), author, Field(b, "first_publish_year"), OptionalFirst(Field(b, "isbn")),
        subjects, Field(b, "edition_count"), Field(b, "key"), coverUrl))
  }

  /** A raw `search_authors` document, reduced; it cannot fail on a record
      that is present, whatever fields it lacks. */
  function ProjectAuthor(a: Json): (r: Result<AuthorSummary, ToolError>)
    ensures r.Ok? <==> !Nullish(a)
    ensures r.Err? ==> r.error == TypeError
    ensures r.Ok? ==> r.value == AuthorSummary(Field(a, "name"), Field(a, "key"), Field(a, "work_count"),
                                                Field(a, "top_work"), Field(a, "birth_date"))
  {
    if Nullish(a) then Err(TypeError)
    else Ok(AuthorSummary(Field(a, "name"), Field(a, "key"), Field(a, "work_count"),
                          Field(a, "top_work"), Field(a, "birth_date")))
  }

  /** A record without a birth date is reduced to one with the birth date
      absent, not refused. */
  lemma AuthorWithoutBirthDate(fields: map<string, Json>)
    requires "birth_date" !in fields
    ensures ProjectAuthor(Obj(fields)).Ok? && ProjectAuthor(Obj(fields)).value.birthDate == Undefined
  {
  }

  /** A raw entry of an author's works, reduced. */
  function ProjectWork(w: Json): (r: Result<WorkSummary, ToolError>)
    ensures r.Ok? <==> !Nullish(w)
    ensures r.Err? ==> r.error == TypeError
    ensures r.Ok? ==> r.value == WorkSummary(Field(w, "title"), Field(w, "key"), Field(w, "first_publish_date"))
  {
    if Nullish(w) then Err(TypeError)
    else Ok(WorkSummary(Field(w, "title"), Field(w, "key"), Field(w, "first_publish_date")))
  }

  /** A raw trending work, reduced. */
  function ProjectTrendingBook(b: Json): (r: Result<TrendingBook, ToolError>)
    ensures r.Ok? <==> !Nullish(b)
                       && (Nullish(Field(b, "author_name")) || (Field(b, "author_name").Arr? && Stringable(Field(b, "author_name"))))
                       && (!Truthy(Field(b, "cover_i")) || Stringable(Field(b, "cover_i")))
    ensures r.Err? ==> r.error == TypeError
    ensures r.Ok? ==> r.value.title == Field(b, "title") && r.value.key == Field(b, "key")
    // the names, joined with ", "; absent when there are none
    ensures r.Ok? && Nullish(Field(b, "author_name")) ==> r.value.author == Undefined
    ensures r.Ok? && Field(b, "author_name").Arr?
            && (forall i :: 0 <= i < |Field(b, "author_name").items| ==> Field(b, "author_name").items[i].Str?)
            ==> r.value.author == Str(Join(Texts(Field(b, "author_name").items), ", "))
    ensures r.Ok? ==> CoverUrl(Field(b, "cover_i")) == Ok(r.value.coverUrl)
  {
    if Nullish(b) then Err(TypeError)
    else
      var names := Field(b, "author_name");
      var author :- OptionalJoin(names, ", ");
      var coverUrl :- CoverUrl(Field(b, "cover_i"));
      assert names.Arr? && (forall i :: 0 <= i < |names.items| ==> names.items[i].Str?) ==>
               Texts(names.items) == seq(|names.items|, i requires 0 <= i < |names.items| => names.items[i].s);
      Ok(TrendingBook(Field(b, "title"), author, Field(b, "key"), coverUrl))
  }

  /** The two handlers that show covers derive the same URL, and the same
      author text, from the same raw record. */
  lemma CoverRuleShared(b: Json)
    requires ProjectBook(b).Ok?
    ensures ProjectTrendingBook(b).Ok?
    ensures ProjectTrendingBook(b).value.coverUrl == ProjectBook(b).value.coverUrl
    ensures ProjectTrendingBook(b).value.author == ProjectBook(b).value.author
  {
  }

  // ---------------------------------------------------------------------
  // Whole responses

  datatype SearchBooksResult = SearchBooksResult(total: Json, books: Option<seq<BookSummary>>)
  datatype SearchAuthorsResult = SearchAuthorsResult(total: Json, authors: Option<seq<AuthorSummary>>)
  datatype AuthorWorksResult = AuthorWorksResult(total: Json, works: Option<seq<WorkSummary>>)

  /** `{ total: d.numFound, books: d.docs?.map(...) }` */
  function ProjectSearchBooks(d: Json): (r: Result<SearchBooksResult, ToolError>)
    ensures Nullish(d) ==> r == Err(TypeError)
    ensures !Nullish(d) && !Nullish(Field(d, "docs")) && !Field(d, "docs").Arr? ==> r == Err(TypeError)
    ensures !Nullish(d) && Nullish(Field(d, "docs")) ==> r == Ok(SearchBooksResult(Field(d, "numFound"), None))
    ensures r.Ok? ==> r.value.total == Field(d, "numFound")
    ensures r.Ok? ==> (r.value.books.Some? <==> Field(d, "docs").Arr?)
    ensures r.Ok? && r.value.books.Some? ==>
              Field(d, "docs").Arr? && |r.value.books.value| == |Field(d, "docs").items|
              && forall i :: 0 <= i < |Field(d, "docs").items| ==>
                   ProjectBook(Field(d, "docs").items[i]) == Ok(r.value.books.value[i])
    ensures !Nullish(d) && Field(d, "docs").Arr? ==>
              (r.Ok? <==> forall i :: 0 <= i < |Field(d, "docs").items| ==> ProjectBook(Field(d, "docs").items[i]).Ok?)
  {
    if Nullish(d) then Err(TypeError)
    else
      var books :- OptionalMap(Field(d, "docs"), ProjectBook);
      Ok(SearchBooksResult(Field(d, "numFound"), books))
  }

  /** `{ total: d.numFound, authors: d.docs?.map(...) }` */
  function ProjectSearchAuthors(d: Json): (r: Result<SearchAuthorsResult, ToolError>)
    ensures Nullish(d) ==> r == Err(TypeError)
    ensures !Nullish(d) && !Nullish(Field(d, "docs")) && !Field(d, "docs").Arr? ==> r == Err(TypeError)
    ensures !Nullish(d) && Nullish(Field(d, "docs")) ==> r == Ok(SearchAuthorsResult(Field(d, "numFound"), None))
    ensures r.Ok? ==> r.value.total == Field(d, "numFound")
    ensures r.Ok? ==> (r.value.authors.Some? <==> Field(d, "docs").Arr?)
    ensures r.Ok? && r.value.authors.Some? ==>
              Field(d, "docs").Arr? && |r.value.authors.value| == |Field(d, "docs").items|
              && forall i :: 0 <= i < |Field(d, "docs").items| ==>
                   ProjectAuthor(Field(d, "docs").items[i]) == Ok(r.value.authors.value[i])
    ensures !Nullish(d) && Field(d, "docs").Arr? ==>
              (r.Ok? <==> forall i :: 0 <= i < |Field(d, "docs").items| ==> !Nullish(Field(d, "docs").items[i]))
  {
    if Nullish(d) then Err(TypeError)
    else
      var authors :- OptionalMap(Field(d, "docs"), ProjectAuthor);
      Ok(SearchAuthorsResult(Field(d, "numFound"), authors))
  }

  /** `{ total: d.size, works: d.entries?.map(...) }`. On an array answer
      `d.entries` is the method `Array.prototype.entries`, which has no
      `map`, so the call fails there too. */
  function ProjectAuthorWorks(d: Json): (r: Result<AuthorWorksResult, ToolError>)
    ensures Nullish(d) || d.Arr? ==> r == Err(TypeError)
    ensures !Nullish(d) && !Nullish(Field(d, "entries")) && !Field(d, "entries").Arr? ==> r == Err(TypeError)
    ensures !Nullish(d) && !d.Arr? && Nullish(Field(d, "entries")) ==> r == Ok(AuthorWorksResult(Field(d, "size"), None))
    ensures r.Ok? ==> r.value.total == Field(d, "size")
    ensures r.Ok? ==> (r.value.works.Some? <==> Field(d, "entries").Arr?)
    ensures r.Ok? && r.value.works.Some? ==>
              Field(d, "entries").Arr? && |r.value.works.value| == |Field(d, "entries").items|
              && forall i :: 0 <= i < |Field(d, "entries").items| ==>
                   ProjectWork(Field(d, "entries").items[i]) == Ok(r.value.works.value[i])
    ensures !Nullish(d) && Field(d, "entries").Arr? ==>
              (r.Ok? <==> forall i :: 0 <= i < |Field(d, "entries").items| ==> !Nullish(Field(d, "entries").items[i]))
  {
    if Nullish(d) || d.Arr? then Err(TypeError)
    else
      var works :- OptionalMap(Field(d, "entries"), ProjectWork);
      Ok(AuthorWorksResult(Field(d, "size"), works))
  }

  /** `d.works?.map(...)`: the list alone, no total. */
  function ProjectTrending(d: Json): (r: Result<Option<seq<TrendingBook>>, ToolError>)
    ensures Nullish(d) ==> r == Err(TypeError)
    ensures !Nullish(d) && !Nullish(Field(d, "works")) && !Field(d, "works").Arr? ==> r == Err(TypeError)
    ensures !Nullish(d) && Nullish(Field(d, "works")) ==> r == Ok(None)
    ensures r.Ok? ==> (r.value.Some? <==> Field(d, "works").Arr?)
    ensures r.Ok? && r.value.Some? ==>
              Field(d, "works").Arr? && |r.value.value| == |Field(d, "works").items|
              && forall i :: 0 <= i < |Field(d, "works").items| ==>
                   ProjectTrendingBook(Field(d, "works").items[i]) == Ok(r.value.value[i])
    ensures !Nullish(d) && Field(d, "works").Arr? ==>
              (r.Ok? <==> forall i :: 0 <= i < |Field(d, "works").items| ==> ProjectTrendingBook(Field(d, "works").items[i]).Ok?)
  {
    if Nullish(d) then Err(TypeError) else OptionalMap(Field(d, "works"), ProjectTrendingBook)
  }
}
