/**
 * The feed of src/components/feed.tsx reading the page files that
 * gatsby-node.ts writes. The build pages only the published, non-featured
 * articles; the feed computes its page count from the `totalCount` of all
 * articles. This module models both counts and the page fetch between them.
 */
module Site {
  import opened Wrappers
  import opened Strings
  import opened Types
  import Feed
  import opened GatsbyNode

  /**
   * The page files the build serves, `/articles/articles-<i>.json` at index
   * `i - 1`. Reading their data in page order gives back the listed
   * articles, each exactly once.
   */
  function PageStore(listed: seq<Article>): (r: seq<PageFile>)
    ensures |r| == CountPages(|listed|)
    ensures Feed.WellNumbered(r)
    ensures forall i :: 0 <= i < |r| ==> r[i].pages == |r| && r[i].data == PageSlice(listed, i + 1)
    ensures Feed.PagesData(r, 1, |r|) == listed
  {
    var c := CountPages(|listed|);
    var r := seq(c, i requires 0 <= i < c => PageJson(listed, c, i + 1));
    assert forall k :: 0 <= k < |r| ==> r[k].data == PageSlice(listed, k + 1);
    StoreData(listed, r, 1);
    PagesConcatenate(listed);
    r
  }

  /** Pages `i..` of a store of the listed slices hold what `PagesFrom` gives. */
  lemma {:induction false} StoreData(listed: seq<Article>, r: seq<PageFile>, i: nat)
    requires |r| == CountPages(|listed|)
    requires forall k :: 0 <= k < |r| ==> r[k].data == PageSlice(listed, k + 1)
    requires 1 <= i <= |r| + 1
    ensures Feed.PagesData(r, i, |r|) == PagesFrom(listed, i)
    decreases |r| + 1 - i
  {
    if i <= |r| {
      StoreData(listed, r, i + 1);
    }
  }

  /**
   * Reading page `p` of the store is looking up `articles-<p>.json` among the
   * files a build wrote: present exactly for `1..countPages`.
   */
  lemma ServedPages(files: map<string, PageFile>, listed: seq<Article>, p: nat)
    requires IsPagination(files, listed) && p >= 1
    ensures Feed.PageAt(PageStore(listed), p) ==
      (if FileName(p) in files then Some(files[FileName(p)]) else None)
  {
    var c := CountPages(|listed|);
    if FileName(p) in files {
      var i :| 1 <= i <= c && FileName(i) == FileName(p);
      FileNameInjective(i, p);
    }
  }

  /** The feed's `total: allArticles { totalCount }`: every article, drafts and featured ones included. */
  function FeedTotalCount(all: seq<Article>): (n: nat)
    ensures n >= |Listed(all)|
  {
    |all|
  }

  /**
   * The count the page files are built from: the published, non-featured
   * articles, which are exactly the articles the served pages hold, spread
   * over `Math.ceil(n / 6)` files.
   */
  function ListedCount(all: seq<Article>): (n: nat)
    ensures n <= FeedTotalCount(all)
    ensures n == |Listed(all)|
    ensures var store := PageStore(Listed(all));
      n == |Feed.PagesData(store, 1, |store|)| && |store| == Feed.TotalPages(n)
  {
    |Listed(all)|
  }

  /** Both page counts are `Math.ceil(n / 6)`. */
  lemma SameFormula(n: nat)
    ensures Feed.TotalPages(n) == CountPages(n)
  {
  }

  /**
   * As written: when the unpaged articles push `totalCount` past the last
   * page file (the listed ones fill their pages exactly, say), the feed's
   * guard `nextPage <= totalPages` admits the page after the last one, and
   * fetching it fails.
   */
  lemma MissingPageAsWritten(all: seq<Article>, filter: string, term: string)
    requires Feed.ArticlesPerPage * CountPages(ListedCount(all)) < FeedTotalCount(all)
    ensures var c := CountPages(ListedCount(all));
      && c + 1 <= Feed.TotalPages(FeedTotalCount(all))
      && Feed.FetchArticles(PageStore(Listed(all)), Feed.TotalPages(FeedTotalCount(all)), filter, term, c + 1)
         == Err(Feed.MissingPage(c + 1))
  {
    var c := CountPages(ListedCount(all));
    var tp := Feed.TotalPages(FeedTotalCount(all));
    assert tp * Feed.ArticlesPerPage >= FeedTotalCount(all);
    assert c + 1 <= tp;
    assert Feed.PageAt(PageStore(Listed(all)), c + 1).None?;
  }

  /** A site with six listed articles and one featured one meets that condition. */
  lemma SixListedOneFeatured(listed: seq<Article>, f: Article)
    requires |listed| == 6 && (forall i :: 0 <= i < 6 ==> IsListed(listed[i])) && f.featured
    ensures ListedCount(listed + [f]) == 6 && FeedTotalCount(listed + [f]) == 7
    ensures Feed.ArticlesPerPage * CountPages(ListedCount(listed + [f])) < FeedTotalCount(listed + [f])
  {
    FilterAppend(IsListed, listed, [f]);
    FilterAll(IsListed, listed);
    assert [f][1..] == [];
    assert Filter(IsListed, [f]) == [];
    assert CountPages(6) == 1;
  }

  /** Corrected: with the listed count, every page the feed may ask for exists. */
  lemma NoMissingPage(all: seq<Article>, filter: string, term: string, page: nat)
    requires page >= 1
    ensures Feed.TotalPages(ListedCount(all)) == |PageStore(Listed(all))|
    ensures Feed.FetchArticles(PageStore(Listed(all)), Feed.TotalPages(ListedCount(all)), filter, term, page).Ok?
  {
  }

  /** The feed opened on a built site, with the corrected count. */
  method OpenFeed(all: seq<Article>, firstPage: seq<Article>) returns (feed: Feed.FeedState)
    ensures fresh(feed)
    ensures feed.store == PageStore(Listed(all)) && feed.totalPages == |feed.store|
    ensures feed.articles == firstPage && feed.nextPage == 2 && !feed.fetching
  {
    feed := new Feed.FeedState(PageStore(Listed(all)), ListedCount(all), firstPage);
  }

  /** On such a feed a scroll never leaves the feed stuck in `fetching`. */
  method Scroll(feed: Feed.FeedState, all: seq<Article>, nearBottom: bool)
    requires feed.store == PageStore(Listed(all)) && feed.totalPages == |feed.store|
    requires !feed.fetching && feed.nextPage >= 1
    modifies feed
    ensures !feed.fetching && feed.nextPage >= old(feed.nextPage)
    ensures |old(feed.articles)| <= |feed.articles| && feed.articles[..|old(feed.articles)|] == old(feed.articles)
  {
    NoMissingPage(all, feed.filter, feed.term, feed.nextPage);
    SameFormula(ListedCount(all));
    feed.LoadMore(nearBottom);
  }
}
