/**
 * The older feed of src/components/feed.js: the distinct site filters, the
 * site filter kept in `filteredArticles`, and page-by-page fetching with a
 * `nextPage` that becomes `null` after the last page.
 */
module FeedJs {
  import opened Wrappers
  import opened Strings
  import opened Types
  import Feed

  /** An article's optional `site`. */
  type Site = Option<string>

  /** `Array.from(new Set(xs))`: the distinct values in first-occurrence order. */
  function Distinct(xs: seq<Site>): (r: seq<Site>)
    ensures forall x :: x in r <==> x in xs
  {
    if xs == [] then []
    else
      var d := Distinct(xs[..|xs| - 1]);
      var x := xs[|xs| - 1];
      assert forall y :: y in xs <==> y in xs[..|xs| - 1] || y == x by {
        assert xs == xs[..|xs| - 1] + [x];
      }
      if x in d then d else d + [x]
  }

  /** Index of the first occurrence of `x` in `xs`. */
  function FirstIndex(xs: seq<Site>, x: Site): (k: nat)
    requires x in xs
    ensures k < |xs| && xs[k] == x && x !in xs[..k]
  {
    if xs[0] == x then 0 else 1 + FirstIndex(xs[1..], x)
  }

  lemma FirstIndexInPrefix(xs: seq<Site>, n: nat, x: Site)
    requires n <= |xs| && x in xs[..n] && x in xs
    ensures FirstIndex(xs, x) == FirstIndex(xs[..n], x)
  {
    var k := FirstIndex(xs[..n], x);
    assert xs[..n][..k] == xs[..k];
  }

  ghost predicate NoDuplicates(r: seq<Site>) {
    forall i, j :: 0 <= i < j < |r| ==> r[i] != r[j]
  }

  /** The `filters` list: no duplicates, the same values, ordered by first occurrence. */
  lemma {:induction false} DistinctSpec(xs: seq<Site>)
    ensures NoDuplicates(Distinct(xs))
    ensures forall i, j :: 0 <= i < j < |Distinct(xs)| ==>
      FirstIndex(xs, Distinct(xs)[i]) < FirstIndex(xs, Distinct(xs)[j])
  {
    if xs != [] {
      var pre := xs[..|xs| - 1];
      var d := Distinct(pre);
      var x := xs[|xs| - 1];
      DistinctSpec(pre);
      assert xs[..|xs| - 1] == pre;
      forall i | 0 <= i < |d| ensures d[i] in xs && FirstIndex(xs, d[i]) == FirstIndex(pre, d[i]) {
        assert d[i] in pre;
        var m :| 0 <= m < |pre| && pre[m] == d[i];
        assert xs[m] == d[i];
        FirstIndexInPrefix(xs, |xs| - 1, d[i]);
      }
      if x !in d {
        assert x !in pre;
        assert FirstIndex(xs, x) == |xs| - 1;
      }
    }
  }

  /** `filters`: the distinct `site` values of all articles. */
  function Filters(all: seq<Article>): seq<Option<string>> {
    Distinct(Sites(all))
  }

  function Sites(all: seq<Article>): (r: seq<Option<string>>)
    ensures |r| == |all| && forall i :: 0 <= i < |all| ==> r[i] == all[i].site
  {
    seq(|all|, i requires 0 <= i < |all| => all[i].site)
  }

  /** Every site value appears in `filters` exactly once. */
  lemma FiltersSpec(all: seq<Article>)
    ensures forall a :: a in all ==> a.site in Filters(all)
    ensures forall s :: s in Filters(all) ==> exists a :: a in all && a.site == s
    ensures NoDuplicates(Filters(all))
  {
    DistinctSpec(Sites(all));
    forall a | a in all ensures a.site in Sites(all) {
      var i :| 0 <= i < |all| && all[i] == a;
      assert Sites(all)[i] == a.site;
    }
    forall s | s in Filters(all) ensures exists a :: a in all && a.site == s {
      var i :| 0 <= i < |all| && Sites(all)[i] == s;
      assert all[i] in all;
    }
  }

  /**
   * The component's state. `filteredArticles` is meant to be `applyFilter(articles)`;
   * `Valid` says so, and every operation keeps it.
   */
  class FeedJsState {
    const store: seq<PageFile>
    var articles: seq<Article>
    var filteredArticles: seq<Article>
    var filter: string
    var nextPage: Option<nat>

    ghost predicate Valid()
      reads this
    {
      filteredArticles == Feed.ApplyFilter(filter, articles)
    }

    constructor (store: seq<PageFile>, firstPage: seq<Article>)
      ensures Valid()
      ensures this.store == store && articles == firstPage && filteredArticles == firstPage
      ensures filter == "All" && nextPage == Some(2)
    {
      this.store := store;
      articles := firstPage;
      filteredArticles := firstPage;
      filter := "All";
      nextPage := Some(2);
    }

    /**
     * `fetchArticles`: nothing once `nextPage` is null; otherwise the page's data is
     * appended to `articles`, its filtered data to `filteredArticles`, and `nextPage`
     * moves on while `json.currentPage < json.pages`. A missing page rejects and
     * changes nothing.
     */
    method FetchArticles()
      requires Valid()
      modifies this
      ensures Valid()
      ensures filter == old(filter)
      ensures old(nextPage).None? ==>
        articles == old(articles) && filteredArticles == old(filteredArticles) && nextPage == old(nextPage)
      ensures old(nextPage).Some? ==>
        match Feed.PageAt(store, old(nextPage).value)
        case None =>
          articles == old(articles) && filteredArticles == old(filteredArticles) && nextPage == old(nextPage)
        case Some(json) =>
          && articles == old(articles) + json.data
          && filteredArticles == old(filteredArticles) + Feed.ApplyFilter(filter, json.data)
          && nextPage == (if json.currentPage < json.pages then Some(old(nextPage).value + 1) else None)
    {
      if nextPage.None? {
        return;
      }
      var json := Feed.PageAt(store, nextPage.value);
      if json.None? {
        return;
      }
      Feed.ApplyFilterAppend(filter, articles, json.value.data);
      articles := articles + json.value.data;
      filteredArticles := filteredArticles + Feed.ApplyFilter(filter, json.value.data);
      nextPage := if json.value.currentPage < json.value.pages then Some(nextPage.value + 1) else None;
    }

    /** `setFilter` followed by the effect on `[filter]`. */
    method ChangeFilter(value: string)
      modifies this
      ensures Valid()
      ensures filter == value && articles == old(articles) && nextPage == old(nextPage)
    {
      filter := value;
      filteredArticles := Feed.ApplyFilter(filter, articles);
    }
  }
}
