/** The article record shared by the build step and the feed (src/types.ts). */
module Types {
  import opened Wrappers

  datatype ArticleState = Draft | Published

  /** An article as the GraphQL layer returns it; `image` and `site` are optional. */
  datatype Article = Article(
    date: int,
    kind: string,          // the `type` field: 'authored' or 'external'
    url: string,
    image: Option<string>,
    title: string,
    description: string,
    content: string,
    site: Option<string>,
    featured: bool,
    state: ArticleState)

  /** The JSON object of one pagination file: `{pages, currentPage, data}`. */
  datatype PageFile = PageFile(pages: nat, currentPage: nat, data: seq<Article>)
}
