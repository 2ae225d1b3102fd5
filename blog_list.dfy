/**
 * `BlogList`: the blog index shows the first 8 posts and reveals 8 more per
 * "Load More" click; each shown post has its image normalised, and the
 * shown posts are laid out as a featured post, a second post and a grid of
 * the rest.
 */
module BlogList {
  import opened Wrappers
  import opened JsStrings
  import opened ImagePath

  /** One post, as the content gives it. */
  datatype Blog = Blog(
    image: Option<string>,
    author: string,
    date: string,
    title: string,
    tags: seq<string>,
    link: Option<string>)

  const BatchSize: nat := 8
  const BlogImageFallback: string := "/images/blog1.png"
  const LoadMoreFallbackText: string := "Load More Articles"

  function Min(a: int, b: int): int {
    if a <= b then a else b
  }

  /** `blogs.slice(start, start + 8)`, clamped to the list. */
  function Batch(blogs: seq<Blog>, start: nat): (r: seq<Blog>)
    ensures |r| <= BatchSize
    ensures start < |blogs| ==> r != []
  {
    blogs[Min(start, |blogs|)..Min(start + BatchSize, |blogs|)]
  }

  /** What one "Load More" click shows: the shown posts followed by the next batch. */
  function LoadMoreStep(blogs: seq<Blog>, shown: seq<Blog>): (r: seq<Blog>)
    ensures |shown| <= |r| <= |shown| + BatchSize && r[..|shown|] == shown
    ensures |shown| <= |blogs| && shown == blogs[..|shown|] ==> r == blogs[..Min(|shown| + BatchSize, |blogs|)]
  {
    shown + Batch(blogs, |shown|)
  }

  /** The posts shown after `clicks` clicks, starting from the first batch. */
  function ShownAfter(blogs: seq<Blog>, clicks: nat): (r: seq<Blog>)
    ensures |r| <= |blogs| && r == blogs[..|r|]
  {
    if clicks == 0 then Batch(blogs, 0) else LoadMoreStep(blogs, ShownAfter(blogs, clicks - 1))
  }

  /** After `clicks` clicks exactly the first `8 * (clicks + 1)` posts are shown (or all of them). */
  lemma {:induction false} ShownAfterIsPrefix(blogs: seq<Blog>, clicks: nat)
    ensures ShownAfter(blogs, clicks) == blogs[..Min(BatchSize * (clicks + 1), |blogs|)]
  {
    if clicks > 0 {
      ShownAfterIsPrefix(blogs, clicks - 1);
      var a := Min(BatchSize * clicks, |blogs|);
      var b := Min(BatchSize * (clicks + 1), |blogs|);
      assert BatchSize * (clicks + 1) == BatchSize * clicks + BatchSize;
      assert Batch(blogs, a) == blogs[a..b];
      assert blogs[..a] + blogs[a..b] == blogs[..b];
    }
  }

  /** `|blogs| / 8` clicks show every post. */
  lemma EveryPostReachable(blogs: seq<Blog>)
    ensures ShownAfter(blogs, |blogs| / BatchSize) == blogs
  {
    ShownAfterIsPrefix(blogs, |blogs| / BatchSize);
    assert BatchSize * (|blogs| / BatchSize + 1) >= |blogs|;
    assert blogs[..|blogs|] == blogs;
  }

  /** `normalizeImagePath`, with the blog fallback image. */
  function NormalizeBlogImage(path: Option<string>): (r: string)
    ensures r != []
    ensures IsBlank(path) ==> r == BlogImageFallback
    ensures !IsBlank(path) ==> IsNormalImagePath(r)
  {
    NormalizeImagePath(path, BlogImageFallback)
  }

  /** A post with its image normalised and every other field kept. */
  function NormalizeBlog(b: Blog): (r: Blog)
    ensures r.image.Some? && r.image.value != []
    ensures r.(image := b.image) == b
  {
    b.(image := Some(NormalizeBlogImage(b.image)))
  }

  function NormalizeAll(shown: seq<Blog>): (r: seq<Blog>)
    ensures |r| == |shown|
    ensures forall i :: 0 <= i < |r| ==> r[i] == NormalizeBlog(shown[i])
  {
    seq(|shown|, i requires 0 <= i < |shown| => NormalizeBlog(shown[i]))
  }

  /** The rendered page: featured post, second post, and the grid of the rest. */
  datatype Layout = Layout(featured: Option<Blog>, second: Option<Blog>, remaining: seq<Blog>)

  function LayoutOf(shown: seq<Blog>): (l: Layout)
    ensures l.featured.Some? <==> |shown| >= 1
    ensures l.second.Some? <==> |shown| >= 2
  {
    var n := NormalizeAll(shown);
    Layout(
      if |n| >= 1 then Some(n[0]) else None,
      if |n| >= 2 then Some(n[1]) else None,
      if |n| >= 2 then n[2..] else [])
  }

  function OptToSeq(o: Option<Blog>): seq<Blog> {
    if o.Some? then [o.value] else []
  }

  /** The three parts of the layout are exactly the shown posts, normalised, in order. */
  lemma LayoutPartitionsShown(shown: seq<Blog>)
    ensures var l := LayoutOf(shown);
            OptToSeq(l.featured) + OptToSeq(l.second) + l.remaining == NormalizeAll(shown)
  {
    var n := NormalizeAll(shown);
    if |n| >= 2 {
      assert n == [n[0]] + [n[1]] + n[2..];
    } else if |n| == 1 {
      assert n == [n[0]];
    }
  }

  /** The featured post links to its own link, or to "#" without one. */
  function FeaturedHref(b: Blog): (href: string)
    ensures Truthy(b.link) ==> href == b.link.value
    ensures !Truthy(b.link) ==> href == "#"
  {
    Or(b.link, "#")
  }

  /** The label of the load-more button or link. */
  function LoadMoreText(text: Option<string>): (r: string)
    ensures r != []
    ensures Truthy(text) ==> r == text.value
    ensures !Truthy(text) ==> r == "Load More Articles"
  {
    Or(text, LoadMoreFallbackText)
  }

  /** The load-more link replaces the button once it is hidden, if a link is configured. */
  function ShowsLoadMoreLink(showLoadMore: bool, loadMoreLink: Option<string>): (b: bool)
    ensures b ==> !showLoadMore
    ensures b <==> !showLoadMore && Truthy(loadMoreLink)
  {
    !showLoadMore && Truthy(loadMoreLink)
  }

  /** The component's state: the post list it was given, the posts shown, and the button flag. */
  class BlogListState {
    var blogs: seq<Blog>
    var displayed: seq<Blog>
    var showLoadMore: bool

    /** The shown posts are a prefix of the list and the button shows exactly while some are hidden. */
    ghost predicate Valid()
      reads this
    {
      && |displayed| <= |blogs|
      && displayed == blogs[..|displayed|]
      && showLoadMore == (|displayed| < |blogs|)
    }

    /** The first render: `data?.blogs || []`, the first batch, and the button if more remain. */
    constructor (blogs: Option<seq<Blog>>)
      ensures this.blogs == blogs.GetOr([])
      ensures displayed == Batch(this.blogs, 0) && displayed == ShownAfter(this.blogs, 0)
      ensures showLoadMore == (|this.blogs| > BatchSize)
      ensures Valid()
    {
      var bs := blogs.GetOr([]);
      this.blogs := bs;
      displayed := bs[..Min(BatchSize, |bs|)];
      showLoadMore := |bs| > BatchSize;
    }

    /** `handleLoadMore`: the next batch is appended and the button hides once all are shown. */
    method HandleLoadMore()
      modifies this
      ensures blogs == old(blogs)
      ensures displayed == LoadMoreStep(blogs, old(displayed))
      ensures showLoadMore == (|displayed| < |blogs|)
      ensures old(Valid()) ==> Valid()
    {
      var currentCount := |displayed|;
      var nextBatch := blogs[Min(currentCount, |blogs|)..Min(currentCount + BatchSize, |blogs|)];
      displayed := displayed + nextBatch;
      showLoadMore := |displayed| < |blogs|;
    }

    /**
     * A re-render with a new post list. The effect that resets the shown
     * posts runs only when the list's length changes.
     */
    method Rerender(newBlogs: Option<seq<Blog>>)
      modifies this
      ensures blogs == newBlogs.GetOr([])
      ensures |blogs| != |old(blogs)| ==>
                displayed == Batch(blogs, 0) && showLoadMore == (|blogs| > BatchSize) && Valid()
      ensures |blogs| == |old(blogs)| ==>
                displayed == old(displayed) && showLoadMore == old(showLoadMore)
    {
      var bs := newBlogs.GetOr([]);
      if |bs| != |blogs| {
        displayed := bs[..Min(BatchSize, |bs|)];
        showLoadMore := |bs| > BatchSize;
      }
      blogs := bs;
    }
  }

  /**
   * A new list of the same length keeps the old shown posts: mounting with
   * `[a]` and re-rendering with `[b]` leaves `a` on screen, so the shown posts
   * are no longer a prefix of the list.
   */
  method SameLengthKeepsStalePosts(a: Blog, b: Blog) returns (st: BlogListState)
    requires a != b
    ensures fresh(st)
    ensures st.blogs == [b] && st.displayed == [a] && st.showLoadMore == false
    ensures !st.Valid()
  {
    st := new BlogListState(Some([a]));
    st.Rerender(Some([b]));
    assert st.blogs[..|st.displayed|] == [b];
  }
}
