/**
 * The home page's list of posts, reduced to what it decides: which of the
 * loading, error and content screens shows, which post is featured, and what
 * each card shows and selects when clicked.
 */
module BlogList {
  import opened Wrappers
  import opened Builtins
  import opened Api
  import opened Query

  /** The key the list is fetched and cached under. */
  const ListKey: QueryKey := [Str("blogs")]

  /** The large card for the first post. */
  datatype FeaturedCard = FeaturedCard(
    selects: string, coverImage: string, title: string, description: string,
    readTime: string, date: string)

  /** The grid card for every later post. */
  datatype Card = Card(
    selects: string, coverImage: string, badge: Option<string>, title: string,
    description: string, tags: seq<string>)

  datatype Screen =
    | LoadingStories
    | ErrorLoadingStories
    | Stories(featured: Option<FeaturedCard>, others: seq<Card>)

  /** `blogs?.[0]`: the first post, if there is one. */
  function Featured(blogs: Option<seq<Blog>>): (f: Option<Blog>)
    ensures f.Some? <==> blogs.Some? && |blogs.value| > 0
    ensures f.Some? ==> f.value == blogs.value[0]
  {
    if blogs.Some? && |blogs.value| > 0 then Some(blogs.value[0]) else None
  }

  /** `blogs?.slice(1)`: every post after the first; nothing when there is no list. */
  function Others(blogs: Option<seq<Blog>>): (o: seq<Blog>)
    ensures blogs.None? ==> o == []
    ensures blogs.Some? && |blogs.value| > 0 ==> o == blogs.value[1..]
    ensures blogs.Some? && |blogs.value| == 0 ==> o == []
  {
    if blogs.Some? then SliceFrom(blogs.value, 1) else []
  }

  /** The category badge, `category[0]`; nothing is shown when the list of categories is empty. */
  function Badge(category: seq<string>): (b: Option<string>)
    ensures b.Some? <==> |category| > 0
    ensures b.Some? ==> b.value == category[0]
  {
    if |category| > 0 then Some(category[0]) else None
  }

  /** `tags?.slice(0, 2)`: the first two tags, or none when the post has no tags. */
  function ShownTags(tags: Option<seq<string>>): (r: seq<string>)
    ensures |r| <= 2
    ensures tags.None? ==> r == []
    ensures tags.Some? ==> r <= tags.value && |r| == (if |tags.value| < 2 then |tags.value| else 2)
  {
    if tags.Some? then Slice(tags.value, 0, 2) else []
  }

  /** The read time a post is shown with (on the featured card and the article page); never empty. */
  function ShownReadTime(readTime: Option<string>): (r: string)
    ensures r != ""
    ensures r == DefaultReadTime || readTime == Some(r)
    ensures readTime.Some? && readTime.value != "" ==> r == readTime.value
  {
    OrDefault(readTime, DefaultReadTime)
  }

  /** The featured card selects its own post and shows its cover, title, description, date and read time. */
  function FeaturedOf(b: Blog): (c: FeaturedCard)
    ensures c.selects == b.id
    ensures c.coverImage == b.coverImage && c.title == b.title && c.description == b.description && c.date == b.date
    ensures c.readTime == ShownReadTime(b.readTime)
  {
    FeaturedCard(b.id, b.coverImage, b.title, b.description, ShownReadTime(b.readTime), b.date)
  }

  /** A grid card selects its own post, shows the first category as badge and the first two tags, in order. */
  function CardOf(b: Blog): (c: Card)
    ensures c.selects == b.id
    ensures c.coverImage == b.coverImage && c.title == b.title && c.description == b.description
    ensures |b.category| > 0 ==> c.badge == Some(b.category[0])
    ensures |b.category| == 0 ==> c.badge == None
    ensures b.tags.None? ==> c.tags == []
    ensures b.tags.Some? && |b.tags.value| >= 2 ==> c.tags == b.tags.value[..2]
    ensures b.tags.Some? && |b.tags.value| < 2 ==> c.tags == b.tags.value
  {
    Card(b.id, b.coverImage, Badge(b.category), b.title, b.description, ShownTags(b.tags))
  }

  function Cards(blogs: seq<Blog>): (cs: seq<Card>)
    ensures |cs| == |blogs|
    ensures forall k :: 0 <= k < |blogs| ==> cs[k] == CardOf(blogs[k])
  {
    seq(|blogs|, k requires 0 <= k < |blogs| => CardOf(blogs[k]))
  }

  /**
   * What the list renders. Each screen shows exactly when: loading first,
   * then error, then the stories, which feature a post exactly when there
   * is a first post (see Partition for the rest).
   */
  function Render(q: Observed<seq<Blog>>): (r: Screen)
    ensures r == LoadingStories <==> q.isLoading
    ensures r == ErrorLoadingStories <==> !q.isLoading && q.error.Some?
    ensures r.Stories? <==> !q.isLoading && q.error.None?
    ensures r.Stories? ==> (r.featured.Some? <==> Featured(q.data).Some?)
    ensures r.Stories? && q.data.None? ==> r.others == []
  {
    if q.isLoading then LoadingStories
    else if q.error.Some? then ErrorLoadingStories
    else
      var f := Featured(q.data);
      Stories(if f.Some? then Some(FeaturedOf(f.value)) else None, Cards(Others(q.data)))
  }

  /** The ids the cards on a screen select when clicked, top to bottom. */
  function SelectableIds(screen: Screen): seq<string> {
    match screen
    case Stories(f, cs) =>
      (if f.Some? then [f.value.selects] else []) + seq(|cs|, k requires 0 <= k < |cs| => cs[k].selects)
    case _ => []
  }

  function Ids(blogs: seq<Blog>): (ids: seq<string>)
    ensures |ids| == |blogs| && forall k :: 0 <= k < |blogs| ==> ids[k] == blogs[k].id
  {
    seq(|blogs|, k requires 0 <= k < |blogs| => blogs[k].id)
  }

  /**
   * For a loaded list the featured post is the first, the grid holds the rest
   * in order, the featured post followed by the rest is the whole list, and
   * an empty list has neither.
   */
  lemma {:induction false} Partition(blogs: seq<Blog>)
    ensures var screen := Render(Observed(false, None, Some(blogs)));
      screen.Stories?
      && (screen.featured.Some? <==> |blogs| > 0)
      && (|blogs| > 0 ==> screen.featured == Some(FeaturedOf(blogs[0])))
      && (|blogs| > 0 ==> [blogs[0]] + Others(Some(blogs)) == blogs)
      && |screen.others| == (if |blogs| == 0 then 0 else |blogs| - 1)
      && (forall k :: 0 < k < |blogs| ==> screen.others[k - 1] == CardOf(blogs[k]))
  {
    if |blogs| > 0 { assert [blogs[0]] + blogs[1..] == blogs; }
  }

  /** Every card on the screen, featured or not, selects the post it shows: together they select every post once, in order. */
  lemma {:induction false} CardsSelectTheirPosts(blogs: seq<Blog>)
    ensures SelectableIds(Render(Observed(false, None, Some(blogs)))) == Ids(blogs)
  {
    var screen := Render(Observed(false, None, Some(blogs)));
    var ids := SelectableIds(screen);
    if |blogs| > 0 {
      assert |ids| == |blogs|;
      forall k | 0 <= k < |blogs| ensures ids[k] == blogs[k].id {
        if k > 0 { assert ids[k] == screen.others[k - 1].selects; }
      }
    }
  }
}
