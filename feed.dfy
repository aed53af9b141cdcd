/**
 * The article feed of src/components/feed.tsx: the site filter, the search
 * term, their composition with `pipe`, the recursive page fetch and the
 * "load more" state. Fetching `/articles/articles-<page>.json` is modelled
 * as reading the given sequence of page files.
 */
module Feed {
  import opened Wrappers
  import opened Strings
  import opened Types
  import opened Utils

  const ArticlesPerPage: nat := 6

  /** `Math.ceil(total.totalCount / 6)`. */
  function TotalPages(totalCount: nat): (r: nat)
    ensures r * ArticlesPerPage >= totalCount
    ensures r > 0 ==> (r - 1) * ArticlesPerPage < totalCount
  {
    (totalCount + ArticlesPerPage - 1) / ArticlesPerPage
  }

  function SiteIs(filter: string): Article -> bool {
    (a: Article) => a.site == Some(filter)
  }

  /** `node.title.toLowerCase().includes(term) || node.description.toLowerCase().includes(term)`. */
  function Mentions(term: string): Article -> bool {
    (a: Article) => Contains(Lower(a.title), term) || Contains(Lower(a.description), term)
  }

  function ApplyFilter(filter: string, arr: seq<Article>): seq<Article> {
    if filter == "All" then arr else Filter(SiteIs(filter), arr)
  }

  function ApplyTerm(term: string, arr: seq<Article>): seq<Article> {
    if term == "" then arr else Filter(Mentions(term), arr)
  }

  /** `pipe(applyFilter, applyTerm)`. */
  function Refine(filter: string, term: string, arr: seq<Article>): seq<Article> {
    Pipe([(xs: seq<Article>) => ApplyFilter(filter, xs), (xs: seq<Article>) => ApplyTerm(term, xs)], arr)
  }

  /** What the feed shows for a filter and a term: one predicate for both. */
  function Shown(filter: string, term: string): Article -> bool {
    (a: Article) => (filter == "All" || a.site == Some(filter)) && (term == "" || Mentions(term)(a))
  }

  lemma ApplyFilterSpec(filter: string, arr: seq<Article>)
    ensures filter == "All" ==> ApplyFilter(filter, arr) == arr
    ensures IsSubsequence(ApplyFilter(filter, arr), arr)
    ensures forall a :: a in ApplyFilter(filter, arr) <==> a in arr && (filter == "All" || a.site == Some(filter))
  {
    if filter == "All" {
      SubsequenceOfSelf(arr);
    } else {
      FilterIsSubsequence(SiteIs(filter), arr);
      FilterMembers(SiteIs(filter), arr);
    }
  }

  lemma ApplyTermSpec(term: string, arr: seq<Article>)
    ensures term == "" ==> ApplyTerm(term, arr) == arr
    ensures IsSubsequence(ApplyTerm(term, arr), arr)
    ensures forall a :: a in ApplyTerm(term, arr) <==> a in arr && (term == "" || Mentions(term)(a))
  {
    if term == "" {
      SubsequenceOfSelf(arr);
    } else {
      FilterIsSubsequence(Mentions(term), arr);
      FilterMembers(Mentions(term), arr);
    }
  }

  lemma {:induction false} FilterMembers(p: Article -> bool, s: seq<Article>)
    ensures forall a :: a in Filter(p, s) <==> a in s && p(a)
  {
    if s != [] {
      FilterMembers(p, s[1..]);
      assert s == [s[0]] + s[1..];
    }
  }

  /** The filter distributes over concatenation. */
  lemma ApplyFilterAppend(filter: string, a: seq<Article>, b: seq<Article>)
    ensures ApplyFilter(filter, a + b) == ApplyFilter(filter, a) + ApplyFilter(filter, b)
  {
    if filter != "All" {
      FilterAppend(SiteIs(filter), a, b);
    }
  }

  lemma FilterAllArticles(p: Article -> bool, s: seq<Article>)
    requires forall a :: p(a)
    ensures Filter(p, s) == s
  {
    FilterAll(p, s);
  }

  /**
   * `refine` is the site filter followed by the term filter: it keeps, in
   * order, exactly the articles that pass both.
   */
  lemma RefineSpec(filter: string, term: string, arr: seq<Article>)
    ensures Refine(filter, term, arr) == ApplyTerm(term, ApplyFilter(filter, arr))
    ensures Refine(filter, term, arr) == Filter(Shown(filter, term), arr)
    ensures IsSubsequence(Refine(filter, term, arr), arr)
  {
    var f := (xs: seq<Article>) => ApplyFilter(filter, xs);
    var g := (xs: seq<Article>) => ApplyTerm(term, xs);
    PipeBasics(f, g, arr);
    var site := (a: Article) => filter == "All" || a.site == Some(filter);
    var ment := (a: Article) => term == "" || Mentions(term)(a);
    assert ApplyFilter(filter, arr) == Filter(site, arr) by {
      if filter == "All" { FilterAllArticles(site, arr); }
      else { FilterSame(SiteIs(filter), site, arr); }
    }
    assert ApplyTerm(term, Filter(site, arr)) == Filter(ment, Filter(site, arr)) by {
      if term == "" { FilterAllArticles(ment, Filter(site, arr)); }
      else { FilterSame(Mentions(term), ment, Filter(site, arr)); }
    }
    FilterFilter(site, ment, Shown(filter, term), arr);
    FilterIsSubsequence(Shown(filter, term), arr);
  }

  lemma {:induction false} FilterSame(p: Article -> bool, q: Article -> bool, s: seq<Article>)
    requires forall a :: p(a) == q(a)
    ensures Filter(p, s) == Filter(q, s)
  {
    if s != [] {
      FilterSame(p, q, s[1..]);
    }
  }

  /** The result of the async `fetchArticles`; `end` is `undefined` (false) unless set. */
  datatype Fetched = Fetched(data: seq<Article>, currentPage: nat, end: bool)

  /** `fetch` of a page file that does not exist: the promise rejects. */
  datatype FetchError = MissingPage(page: nat)

  /** `/articles/articles-<page>.json`, read from the given page files. */
  function PageAt(store: seq<PageFile>, page: nat): Option<PageFile> {
    if 1 <= page <= |store| then Some(store[page - 1]) else None
  }

  /** Page file `i` of the store says it is page `i`. */
  ghost predicate WellNumbered(store: seq<PageFile>) {
    forall i :: 0 <= i < |store| ==> store[i].currentPage == i + 1
  }

  /** The raw data of pages `first..last`, concatenated in order. */
  function PagesData(store: seq<PageFile>, first: nat, last: nat): seq<Article>
    requires 1 <= first && last <= |store|
    decreases last + 1 - first
  {
    if first > last then [] else store[first - 1].data + PagesData(store, first + 1, last)
  }

  /** `refine(json.data)` for page `p`. */
  function RefinedPage(store: seq<PageFile>, filter: string, term: string, p: nat): seq<Article>
    requires 1 <= p <= |store|
  {
    Refine(filter, term, store[p - 1].data)
  }

  /**
   * `fetchArticles(page)`: past the last page it answers `{data: [], currentPage:
   * page, end: true}`; a page whose refinement is empty is kept and the next one
   * is fetched and appended; otherwise the page itself is the answer.
   */
  function FetchArticles(store: seq<PageFile>, totalPages: nat, filter: string, term: string, page: nat)
    : (r: Result<Fetched, FetchError>)
    ensures page > totalPages ==> r == Ok(Fetched([], page, true))
    ensures r.Ok? && r.value.end ==> page > totalPages
    ensures r.Err? ==> page <= r.error.page <= totalPages && PageAt(store, r.error.page).None?
    decreases if page <= totalPages then totalPages + 1 - page else 0
  {
    if page > totalPages then Ok(Fetched([], page, true))
    else match PageAt(store, page)
      case None => Err(MissingPage(page))
      case Some(json) =>
        if Refine(filter, term, json.data) == [] then
          match FetchArticles(store, totalPages, filter, term, page + 1)
          case Err(e) => Err(e)
          case Ok(next) => Ok(Fetched(json.data + next.data, next.currentPage, false))
        else Ok(Fetched(json.data, json.currentPage, false))
  }

  /**
   * For well-numbered page files and a page in range, a successful fetch ends
   * at some page `c` in `page..totalPages + 1`; its data is the raw pages from
   * `page` up to `c` (or to the last page when the recursion ran past it); all
   * pages before `c` refine to nothing, and page `c`, when it exists, does not.
   */
  lemma {:induction false} FetchArticlesSpec(store: seq<PageFile>, totalPages: nat, filter: string, term: string, page: nat)
    requires WellNumbered(store) && 1 <= page <= totalPages
    ensures var r := FetchArticles(store, totalPages, filter, term, page);
      r.Ok? ==>
        && page <= r.value.currentPage <= totalPages + 1
        && r.value.currentPage - 1 <= |store|
        && (r.value.currentPage <= totalPages ==>
              r.value.currentPage <= |store|
              && r.value.data == PagesData(store, page, r.value.currentPage)
              && Refine(filter, term, store[r.value.currentPage - 1].data) != [])
        && (r.value.currentPage == totalPages + 1 ==> r.value.data == PagesData(store, page, totalPages))
        && (forall p :: page <= p < r.value.currentPage ==> RefinedPage(store, filter, term, p) == [])
    decreases totalPages + 1 - page
  {
    var r := FetchArticles(store, totalPages, filter, term, page);
    if r.Ok? {
      assert page <= |store|;
      var json := store[page - 1];
      assert json.currentPage == page;
      if Refine(filter, term, json.data) == [] {
        var next := FetchArticles(store, totalPages, filter, term, page + 1);
        assert next.Ok? && r.value == Fetched(json.data + next.value.data, next.value.currentPage, false);
        if page + 1 <= totalPages {
          FetchArticlesSpec(store, totalPages, filter, term, page + 1);
          var c := next.value.currentPage;
          if c <= totalPages {
            assert PagesData(store, page, c) == json.data + PagesData(store, page + 1, c);
          } else {
            assert PagesData(store, page, totalPages) == json.data + PagesData(store, page + 1, totalPages);
          }
        } else {
          assert next.value == Fetched([], page + 1, true);
          assert PagesData(store, page, totalPages) == json.data + PagesData(store, page + 1, totalPages);
          assert PagesData(store, page + 1, totalPages) == [];
        }
        forall p | page <= p < r.value.currentPage ensures RefinedPage(store, filter, term, p) == [] {
          if p == page {
            assert RefinedPage(store, filter, term, p) == Refine(filter, term, json.data);
          }
        }
      } else {
        assert r.value == Fetched(json.data, page, false);
        assert PagesData(store, page, page) == json.data + PagesData(store, page + 1, page);
      }
    }
  }

  /** Recursion never hands back `end: true`, even when it ran past the last page. */
  lemma FetchInRangeNeverEnds(store: seq<PageFile>, totalPages: nat, filter: string, term: string, page: nat)
    requires page <= totalPages
    ensures var r := FetchArticles(store, totalPages, filter, term, page); r.Ok? ==> !r.value.end
  {
  }

  /**
   * The feed's state: `articles`, `filter`, `term`, `nextPage` and `fetching`,
   * with the build-time query results (`firstPage`, `totalPages`) and the page
   * files as constants.
   */
  class FeedState {
    const store: seq<PageFile>
    const totalPages: nat
    const firstPage: seq<Article>
    var articles: seq<Article>
    var filter: string
    var term: string
    var nextPage: nat
    var fetching: bool

    constructor (store: seq<PageFile>, totalCount: nat, firstPage: seq<Article>)
      ensures this.store == store && totalPages == TotalPages(totalCount) && this.firstPage == firstPage
      ensures articles == firstPage && filter == "All" && term == "" && nextPage == 2 && !fetching
    {
      this.store := store;
      this.totalPages := TotalPages(totalCount);
      this.firstPage := firstPage;
      articles := firstPage;
      filter := "All";
      term := "";
      nextPage := 2;
      fetching := false;
    }

    /** What is rendered: `refine(articles)`. */
    function Visible(): seq<Article>
      reads this
    {
      Refine(filter, term, articles)
    }

    /**
     * `loadMore` once the debounce fires; `nearBottom` is the scroll test.
     * A rejected fetch leaves `fetching` set, as the source never clears it.
     */
    method LoadMore(nearBottom: bool)
      modifies this
      ensures filter == old(filter) && term == old(term)
      ensures !(nearBottom && !old(fetching) && old(nextPage) <= totalPages) ==>
        articles == old(articles) && nextPage == old(nextPage) && fetching == old(fetching)
      ensures nearBottom && !old(fetching) && old(nextPage) <= totalPages ==>
        match FetchArticles(store, totalPages, filter, term, old(nextPage))
        case Ok(f) => articles == old(articles) + f.data && nextPage == f.currentPage + 1 && !fetching
        case Err(_) => articles == old(articles) && nextPage == old(nextPage) && fetching
      ensures |old(articles)| <= |articles| && articles[..|old(articles)|] == old(articles)
      ensures WellNumbered(store) && 1 <= old(nextPage) && nextPage != old(nextPage) ==> nextPage > old(nextPage)
    {
      if nearBottom && !fetching && nextPage <= totalPages {
        fetching := true;
        var fetched := FetchArticles(store, totalPages, filter, term, nextPage);
        if fetched.Err? {
          return;
        }
        FetchInRangeNeverEnds(store, totalPages, filter, term, nextPage);
        assert !fetched.value.end;
        if 1 <= nextPage && WellNumbered(store) {
          FetchArticlesSpec(store, totalPages, filter, term, nextPage);
        }
        articles := articles + fetched.value.data;
        nextPage := fetched.value.currentPage + 1;
        fetching := false;
      }
    }

    /** The effect on `[term, filter]`: with both cleared, back to the first page. */
    method ResetWhenCleared()
      modifies this
      ensures filter == old(filter) && term == old(term) && fetching == old(fetching)
      ensures term == "" && filter == "All" ==> articles == firstPage && nextPage == 2
      ensures !(term == "" && filter == "All") ==> articles == old(articles) && nextPage == old(nextPage)
    {
      if term == "" && filter == "All" {
        articles := firstPage;
        nextPage := 2;
      }
    }

    /** The select's `onChange`, followed by the effect. */
    method ChangeFilter(value: string)
      modifies this
      ensures filter == value && term == old(term) && fetching == old(fetching)
      ensures term == "" && value == "All" ==> articles == firstPage && nextPage == 2
      ensures !(term == "" && value == "All") ==> articles == old(articles) && nextPage == old(nextPage)
    {
      filter := value;
      ResetWhenCleared();
    }

    /** The search input's `onChange`: the term is stored lower-cased, then the effect runs. */
    method ChangeTerm(value: string)
      modifies this
      ensures term == Lower(value) && filter == old(filter) && fetching == old(fetching)
      ensures Lower(value) == "" && filter == "All" ==> articles == firstPage && nextPage == 2
      ensures !(Lower(value) == "" && filter == "All") ==> articles == old(articles) && nextPage == old(nextPage)
    {
      term := Lower(value);
      ResetWhenCleared();
    }
  }
}
