/**
 * `createPages` of gatsby-node.ts: one page per authored article, then the
 * published, non-featured articles split into JSON files of six under
 * `public/articles/`. The GraphQL query is an input; the JSON files are held
 * as their decoded objects.
 */
module GatsbyNode {
  import opened Wrappers
  import opened Strings
  import opened Types

  /** What `graphql(...)` resolves with: optional `errors` and optional `data`. */
  datatype QueryResult = QueryResult(errors: Option<string>, data: Option<seq<Article>>)

  /** The two exceptions `createPages` throws. */
  datatype BuildError = QueryFailed(errors: string) | NoData

  /** One `createPage({path, component, context})` call. */
  datatype PageRequest = PageRequest(path: string, component: string, context: Article)

  const ArticleTemplate := "./src/templates/article.tsx"
  const ArticlesPerPage: nat := 6
  const Dir := "public/articles/"

  predicate IsAuthored(a: Article) { a.kind == "authored" }

  /** `node.state === 'published' && !node.featured`. */
  predicate IsListed(a: Article) { a.state == Published && !a.featured }

  function Listed(edges: seq<Article>): seq<Article> { Filter(IsListed, edges) }

  /** The page each authored article gets: its own URL and all of its fields as context. */
  function PageFor(a: Article): PageRequest { PageRequest(a.url, ArticleTemplate, a) }

  function PagesFor(arts: seq<Article>): (r: seq<PageRequest>)
    ensures |r| == |arts|
    ensures forall i :: 0 <= i < |arts| ==> r[i] == PageFor(arts[i])
  {
    if arts == [] then [] else [PageFor(arts[0])] + PagesFor(arts[1..])
  }

  lemma PagesForAppend(a: seq<Article>, b: seq<Article>)
    ensures PagesFor(a + b) == PagesFor(a) + PagesFor(b)
  {
    assert forall i :: 0 <= i < |a + b| ==> PagesFor(a + b)[i] == (PagesFor(a) + PagesFor(b))[i];
  }

  lemma AuthoredStep(edges: seq<Article>, k: nat)
    requires k < |edges|
    ensures PagesFor(Filter(IsAuthored, edges[..k + 1]))
         == PagesFor(Filter(IsAuthored, edges[..k])) + (if IsAuthored(edges[k]) then [PageFor(edges[k])] else [])
  {
    FilterAppend(IsAuthored, edges[..k], [edges[k]]);
    assert edges[..k + 1] == edges[..k] + [edges[k]];
    PagesForAppend(Filter(IsAuthored, edges[..k]), Filter(IsAuthored, [edges[k]]));
    assert Filter(IsAuthored, [edges[k]]) == if IsAuthored(edges[k]) then [edges[k]] else [];
  }

  /** `Math.ceil(articles.length / 6)`. */
  function CountPages(n: nat): (r: nat)
    ensures r * ArticlesPerPage >= n
    ensures r > 0 ==> (r - 1) * ArticlesPerPage < n
    ensures r == 0 <==> n == 0
  {
    (n + ArticlesPerPage - 1) / ArticlesPerPage
  }

  /** `dir + 'articles-' + index + '.json'`. */
  function FileName(i: nat): string { Dir + "articles-" + Decimal(i) + ".json" }

  lemma FileNameInjective(i: nat, j: nat)
    requires FileName(i) == FileName(j)
    ensures i == j
  {
    var p := Dir + "articles-";
    var di, dj := Decimal(i), Decimal(j);
    assert FileName(i) == p + di + ".json";
    assert |di| == |dj|;
    assert di == FileName(i)[|p|..|p| + |di|];
    assert dj == FileName(j)[|p|..|p| + |dj|];
    DecimalInjective(i, j);
  }

  /** `articles.slice(6 * (i - 1), 6 * (i - 1) + 6)`, with `slice`'s clamping. */
  function PageSlice(articles: seq<Article>, i: nat): seq<Article>
    requires i >= 1
  {
    var start := ArticlesPerPage * (i - 1);
    var end := start + ArticlesPerPage;
    var n := |articles|;
    articles[(if start < n then start else n)..(if end < n then end else n)]
  }

  /** The pagination file of page `index` out of `countPages`. */
  function PageJson(articles: seq<Article>, countPages: nat, index: nat): PageFile
    requires index >= 1
  {
    PageFile(countPages, index, PageSlice(articles, index))
  }

  /** The directory `public/articles/` after the build, for the listed articles. */
  ghost predicate IsPagination(files: map<string, PageFile>, articles: seq<Article>) {
    var c := CountPages(|articles|);
    && files.Keys == (set i | 1 <= i <= c :: FileName(i))
    && forall i :: 1 <= i <= c ==> FileName(i) in files && files[FileName(i)] == PageJson(articles, c, i)
  }

  /** Every page but the last holds six articles; the last holds one to six. */
  lemma PageSizes(articles: seq<Article>, i: nat)
    requires 1 <= i <= CountPages(|articles|)
    ensures i < CountPages(|articles|) ==> |PageSlice(articles, i)| == ArticlesPerPage
    ensures i == CountPages(|articles|) ==> 1 <= |PageSlice(articles, i)| <= ArticlesPerPage
  {
  }

  /** Pages `i..countPages` concatenated. */
  function PagesFrom(articles: seq<Article>, i: nat): seq<Article>
    requires i >= 1
    decreases CountPages(|articles|) + 1 - i
  {
    if i > CountPages(|articles|) then [] else PageSlice(articles, i) + PagesFrom(articles, i + 1)
  }

  function Clamp(x: nat, n: nat): nat { if x < n then x else n }

  lemma {:induction false} PagesFromIsSuffix(articles: seq<Article>, i: nat)
    requires 1 <= i <= CountPages(|articles|) + 1
    ensures PagesFrom(articles, i) == articles[Clamp(ArticlesPerPage * (i - 1), |articles|)..]
    decreases CountPages(|articles|) + 1 - i
  {
    var n := |articles|;
    if i <= CountPages(n) {
      PagesFromIsSuffix(articles, i + 1);
      var start := Clamp(ArticlesPerPage * (i - 1), n);
      var end := Clamp(ArticlesPerPage * i, n);
      assert PageSlice(articles, i) == articles[start..end];
      assert articles[start..] == articles[start..end] + articles[end..];
    }
  }

  /** Concatenating the data of pages `1..countPages` gives back the listed articles. */
  lemma PagesConcatenate(articles: seq<Article>)
    ensures PagesFrom(articles, 1) == articles
  {
    PagesFromIsSuffix(articles, 1);
  }

  /**
   * The build's outputs: the `createPage` calls made so far and the JSON
   * files of `public/articles/` (name to decoded content).
   */
  class BuildSite {
    var created: seq<PageRequest>
    var files: map<string, PageFile>

    constructor ()
      ensures created == [] && files == map[]
    {
      created := [];
      files := map[];
    }

    method CreatePages(result: QueryResult) returns (thrown: Option<BuildError>)
      modifies this
      ensures result.errors.Some? ==> thrown == Some(QueryFailed(result.errors.value))
      ensures result.errors.None? && result.data.None? ==> thrown == Some(NoData)
      ensures thrown.Some? ==> created == old(created) && files == old(files)
      ensures result.errors.None? && result.data.Some? ==>
        && thrown.None?
        && created == old(created) + PagesFor(Filter(IsAuthored, result.data.value))
        && IsPagination(files, Listed(result.data.value))
    {
      if result.errors.Some? {
        return Some(QueryFailed(result.errors.value));
      }
      if result.data.None? {
        return Some(NoData);
      }
      CreateArticlePages(result.data.value);
      WritePagination(Listed(result.data.value));
      return None;
    }

    /** The `forEach` over the query's edges: a page for each authored article, in order. */
    method CreateArticlePages(edges: seq<Article>)
      modifies this`created
      ensures created == old(created) + PagesFor(Filter(IsAuthored, edges))
    {
      var pages: seq<PageRequest> := [];
      var k := 0;
      while k < |edges|
        invariant 0 <= k <= |edges|
        invariant pages == PagesFor(Filter(IsAuthored, edges[..k]))
        invariant created == old(created)
      {
        AuthoredStep(edges, k);
        if IsAuthored(edges[k]) {
          pages := pages + [PageFor(edges[k])];
        }
        k := k + 1;
      }
      assert edges[..|edges|] == edges;
      created := created + pages;
    }

    /** `rimraf.sync(dir)`, `fs.mkdirSync(dir)`, then `createJSON(i, slice)` for each page. */
    method WritePagination(articles: seq<Article>)
      modifies this`files
      ensures IsPagination(files, articles)
    {
      var countPages := CountPages(|articles|);
      files := map[];
      var i := 1;
      while i <= countPages
        invariant 1 <= i <= countPages + 1
        invariant files.Keys == (set j | 1 <= j < i :: FileName(j))
        invariant forall j :: 1 <= j < i ==> FileName(j) in files && files[FileName(j)] == PageJson(articles, countPages, j)
      {
        forall j | 1 <= j < i ensures FileName(j) != FileName(i) {
          if FileName(j) == FileName(i) { FileNameInjective(j, i); }
        }
        files := files[FileName(i) := PageJson(articles, countPages, i)];
        i := i + 1;
      }
    }
  }
}
