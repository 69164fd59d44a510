/**
 * The library list: the endpoint chosen by the URL's `tag` and the
 * case-insensitive title filter over the fetched articles.
 */
module LibraryArticles {
  import opened Wrappers
  import opened Strings
  import opened Seqs
  import opened FilterSideBar

  /** `apiPaths[tag]`: four tags have an endpoint; any other has none. */
  function ApiPath(tag: string): (r: Option<string>)
    ensures r.Some? <==> tag in {"", "saved", "in-progress", "recommended-for-you"}
  {
    if tag == "" then Some("/my/articles")
    else if tag == "saved" then Some("/my/articles/status/pinned")
    else if tag == "in-progress" then Some("/my/articles/status/last-viewed")
    else if tag == "recommended-for-you" then Some("/my/articles/suggested")
    else None
  }

  /** `searchParams.get("tag") || ""` */
  function TagOf(params: Params): (t: string)
    ensures "tag" !in params ==> t == ""
    ensures "tag" in params ==> t == params["tag"]
  {
    if "tag" in params then params["tag"] else ""
  }

  /** The endpoint the list fetches: without a tag, the whole library. */
  function PathFor(params: Params): (r: Option<string>)
    ensures "tag" !in params ==> r == Some("/my/articles")
  {
    ApiPath(TagOf(params))
  }

  /** Every menu entry of the sidebar leads to an endpoint. */
  lemma MenuEntriesHavePaths(r: string, a: string, b: string, c: string, p: string, d: string, e: string)
    requires a == "recommended" && b == "for" && c == "you" && r == a + " " + b + " " + c
    requires d == "in" && e == "progress" && p == d + " " + e
    ensures ApiPath(Slug(r)) == Some("/my/articles/suggested")
    ensures ApiPath(Slug(p)) == Some("/my/articles/status/last-viewed")
  {
    RecommendedSlug(r, a, b, c);
    InProgressSlug(p, d, e);
  }

  lemma SavedHasPath(item: string)
    requires item == "saved"
    ensures ApiPath(Slug(item)) == Some("/my/articles/status/pinned")
  {
    OneWordSlug(item);
  }

  /** "All content" pushes the tag `all`, which has no endpoint, so the fetch gets no path. */
  lemma AllContentHasNoPath(params: Params)
    ensures PathFor(WithTag(params, AllTag)).None?
  {
    OneWordSlug(AllTag);
  }

  /** `searchParams.get("search")?.toLowerCase() || ""` */
  function SearchQuery(params: Params): (q: string)
    ensures "search" !in params ==> q == ""
    ensures "search" in params ==> q == ToLower(params["search"])
  {
    if "search" in params then ToLower(params["search"]) else ""
  }

  datatype LibraryArticle = LibraryArticle(id: string, title: string)

  function TitleMatches(query: string): LibraryArticle -> bool {
    (a: LibraryArticle) => Includes(ToLower(a.title), query)
  }

  /** The articles whose lower-cased title contains the query, in fetched order. */
  function FilteredArticles(articles: seq<LibraryArticle>, query: string): (r: seq<LibraryArticle>)
    ensures Subsequence(r, articles)
    ensures forall i :: 0 <= i < |r| ==> Includes(ToLower(r[i].title), query)
    ensures forall a :: a in articles && Includes(ToLower(a.title), query) ==> a in r
  {
    var r := Filter(articles, TitleMatches(query));
    FilterIsSubsequence(articles, TitleMatches(query));
    assert forall i :: 0 <= i < |r| ==> TitleMatches(query)(r[i]);
    r
  }

  /** Without a query every article is shown. */
  lemma EmptyQueryKeepsAll(articles: seq<LibraryArticle>)
    ensures FilteredArticles(articles, "") == articles
  {
    forall i | 0 <= i < |articles| ensures TitleMatches("")(articles[i]) {
      IncludesEmpty(ToLower(articles[i].title));
    }
    FilterKeepsAll(articles, TitleMatches(""));
  }
}
