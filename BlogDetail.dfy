/**
 * The article page, reduced to what it decides: whether it fetches at all,
 * which of its guard screens shows, and what the article shows.
 */
module BlogDetail {
  import opened Wrappers
  import opened Builtins
  import opened Api
  import opened Query
  import BlogList

  /** `!!id`: `null` and `""` are falsy. */
  predicate Truthy(id: Option<string>) {
    id.Some? && id.value != ""
  }

  /** The key the post is fetched and cached under, `['blog', id]`. */
  function DetailKey(id: Option<string>): (k: QueryKey)
    ensures |k| == 2 && k[0] == Str("blog")
    ensures k[1] == (if id.Some? then Str(id.value) else Null)
  {
    [Str("blog"), if id.Some? then Str(id.value) else Null]
  }

  /** The query runs (and so fetches) only for a truthy id, so `fetchBlogById(id!)` only ever gets a non-empty string. */
  predicate QueryEnabled(id: Option<string>)
    ensures QueryEnabled(id) ==> id.Some? && id.value != "" && DetailKey(id) == [Str("blog"), Str(id.value)]
    ensures !QueryEnabled(id) <==> id.None? || id == Some("")
  {
    Truthy(id)
  }

  datatype Article = Article(
    coverImage: string,
    badge: Option<string>,
    readTime: string,
    title: string,
    author: Option<Author>,
    description: string,
    dropCap: string,
    body: string,
    filedUnder: seq<string>)

  datatype Screen =
    | Nothing
    | LoadingStory
    | ErrorLoadingStory
    | StoryNotFound
    | Story(article: Article)

  /** What the article shows of a post. */
  function ArticleOf(b: Blog): (a: Article)
    ensures a.dropCap + a.body == b.content
    ensures |a.dropCap| <= 1 && (a.dropCap == "" <==> b.content == "")
    ensures a.filedUnder == b.category
    ensures a.badge.Some? <==> |b.category| > 0
    ensures a.badge.Some? ==> a.badge.value == b.category[0]
    ensures a.author == b.author
    ensures a.title == b.title && a.description == b.description && a.coverImage == b.coverImage
    ensures a.readTime != "" && (a.readTime == DefaultReadTime || b.readTime == Some(a.readTime))
    ensures b.readTime.Some? && b.readTime.value != "" ==> a.readTime == b.readTime.value
    ensures b.readTime.None? || b.readTime == Some("") ==> a.readTime == DefaultReadTime
  {
    CharAtAndRest(b.content);
    Article(
      b.coverImage,
      BlogList.Badge(b.category),
      BlogList.ShownReadTime(b.readTime),
      b.title,
      b.author,
      b.description,
      CharAt(b.content, 0),
      SliceFrom(b.content, 1),
      b.category)
  }

  /** The guard chain: each screen shows exactly when the guards before it fail and its own holds. */
  function Render(id: Option<string>, q: Observed<Blog>): (r: Screen)
    ensures r == Nothing <==> !Truthy(id)
    ensures r == LoadingStory <==> Truthy(id) && q.isLoading
    ensures r == ErrorLoadingStory <==> Truthy(id) && !q.isLoading && q.error.Some?
    ensures r == StoryNotFound <==> Truthy(id) && !q.isLoading && q.error.None? && q.data.None?
    ensures r.Story? <==> Truthy(id) && !q.isLoading && q.error.None? && q.data.Some?
    ensures r.Story? ==> r.article == ArticleOf(q.data.value)
  {
    if !Truthy(id) then Nothing
    else if q.isLoading then LoadingStory
    else if q.error.Some? then ErrorLoadingStory
    else if q.data.None? then StoryNotFound
    else Story(ArticleOf(q.data.value))
  }

  /** Without a usable id nothing is fetched and nothing is rendered, whatever the query reports. */
  lemma NoIdNoFetch(id: Option<string>, q: Observed<Blog>)
    requires id.None? || id == Some("")
    ensures !QueryEnabled(id)
    ensures Render(id, q) == Nothing
  {
  }

  /** The article's drop cap is the first character, and it and the body give back the whole content. */
  lemma DropCap(b: Blog)
    ensures ArticleOf(b).dropCap == CharAt(b.content, 0)
    ensures ArticleOf(b).body == SliceFrom(b.content, 1)
    ensures b.content != "" ==> ArticleOf(b).dropCap == [b.content[0]] && ArticleOf(b).body == b.content[1..]
    ensures b.content == "" ==> ArticleOf(b).dropCap == "" && ArticleOf(b).body == ""
  {
  }
}
