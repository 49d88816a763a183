/**
 * The feed (pages/Home.tsx): sorts the shared posts newest first, in place,
 * and shows one page of six.
 */
module Home {
  import opened Types
  import opened AppStore
  import Pagination
  import MockData

  const PostsPerPage: nat := 6

  ghost predicate NewestFirst(s: seq<Post>) {
    forall i, j :: 0 <= i < j < |s| ==> s[i].createdAt >= s[j].createdAt
  }

  /** Places `p` before the first post that is not newer than it (so ties keep input order). */
  function Insert(p: Post, s: seq<Post>): (r: seq<Post>)
    ensures multiset(r) == multiset(s) + multiset{p}
    ensures |r| == |s| + 1
    ensures r[0] == p || (|s| > 0 && r[0] == s[0])
    ensures NewestFirst(s) ==> NewestFirst(r)
    decreases |s|
  {
    if |s| == 0 then [p]
    else if p.createdAt >= s[0].createdAt then [p] + s
    else
      var rest := Insert(p, s[1..]);
      assert s == [s[0]] + s[1..];
      assert NewestFirst(s) ==> NewestFirst([s[0]] + rest) by {
        if NewestFirst(s) {
          assert |s| > 1 ==> s[0].createdAt >= s[1].createdAt;
          assert NewestFirst(s[1..]);
          ConsNewestFirst(s[0], rest);
        }
      }
      [s[0]] + rest
  }

  /** A post no older than the head of a newest-first list can go in front of it. */
  lemma ConsNewestFirst(x: Post, r: seq<Post>)
    requires NewestFirst(r)
    requires |r| > 0 ==> x.createdAt >= r[0].createdAt
    ensures NewestFirst([x] + r)
  {
    var xr := [x] + r;
    forall i, j | 0 <= i < j < |xr|
      ensures xr[i].createdAt >= xr[j].createdAt
    {
      if i == 0 {
        assert xr[j] == r[j - 1];
      } else {
        assert xr[i] == r[i - 1] && xr[j] == r[j - 1];
      }
    }
  }

  /**
   * `posts.sort((a, b) => b.createdAt - a.createdAt)`. The engine's sort is
   * stable; insertion from the back keeps equal stamps in input order.
   */
  function SortNewestFirst(s: seq<Post>): (r: seq<Post>)
    ensures NewestFirst(r)
    ensures multiset(r) == multiset(s)
    ensures |r| == |s|
    decreases |s|
  {
    if |s| == 0 then []
    else
      assert s == [s[0]] + s[1..];
      Insert(s[0], SortNewestFirst(s[1..]))
  }

  /** Sorting a list that is already newest first leaves it as it is. */
  lemma {:induction false} SortKeepsOrderedInput(s: seq<Post>)
    requires NewestFirst(s)
    ensures SortNewestFirst(s) == s
    decreases |s|
  {
    if |s| > 0 {
      assert NewestFirst(s[1..]);
      SortKeepsOrderedInput(s[1..]);
      if |s| > 1 {
        assert s[0].createdAt >= s[1].createdAt;
        assert s[1..] == [s[1]] + s[2..];
      }
      assert [s[0]] + s[1..] == s;
    }
  }

  /** A post at least as new as every other one comes first in the feed. */
  lemma {:induction false} NewestPostLeads(p: Post, s: seq<Post>)
    requires forall q :: q in s ==> q.createdAt <= p.createdAt
    ensures SortNewestFirst([p] + s)[0] == p
  {
    var sorted := SortNewestFirst(s);
    assert ([p] + s)[0] == p && ([p] + s)[1..] == s;
    if |sorted| > 0 {
      assert sorted[0] in multiset(s);
    }
  }

  /** The seed posts are already newest first, so loading the feed does not move them. */
  lemma SeedFeedUnchanged(now: Timestamp)
    ensures SortNewestFirst(MockData.MockPosts(now)) == MockData.MockPosts(now)
  {
    MockData.SeedPostsNewestFirst(now);
    SortKeepsOrderedInput(MockData.MockPosts(now));
  }

  /** The page's local state: the loaded list, the loading flag and the page number. */
  class HomePage {
    var posts: seq<Post>
    var loading: bool
    var currentPage: int

    constructor ()
      ensures posts == [] && loading && currentPage == 1
    {
      posts := [];
      loading := true;
      currentPage := 1;
    }

    /** The timed load: reorder the shared array in place and show it. */
    method Load(s: Store)
      modifies this, s
      ensures s.posts == SortNewestFirst(old(s.posts)) && posts == s.posts
      ensures !loading && currentPage == old(currentPage)
      ensures Screen() == Some(FeedView(SortNewestFirst(old(s.posts)), currentPage))
      ensures s.users == old(s.users) && s.reports == old(s.reports) && s.currentUser == old(s.currentUser)
    {
      s.posts := SortNewestFirst(s.posts);
      posts := s.posts;
      loading := false;
    }

    /** `onPageChange={setCurrentPage}` */
    method ChangePage(page: int)
      modifies this
      ensures currentPage == page && posts == old(posts) && loading == old(loading)
    {
      currentPage := page;
    }

    /** What the page shows: the spinner until loaded, then the feed. */
    function Screen(): (r: Option<Feed>)
      reads this
      ensures r.None? <==> loading
      ensures r.Some? ==> (r.value.EmptyMessage? <==> |posts| == 0)
      ensures r.Some? && r.value.Cards? && 1 <= currentPage <= r.value.totalPages ==>
        1 <= |r.value.cards| <= PostsPerPage
    {
      if loading then None
      else
        FeedShape(posts, currentPage);
        Some(FeedView(posts, currentPage))
    }
  }

  /** The rendered feed: the empty message, or one page of cards with the page count. */
  datatype Feed = EmptyMessage | Cards(cards: seq<Post>, totalPages: nat)

  function FeedView(posts: seq<Post>, currentPage: int): Feed {
    if |posts| == 0 then EmptyMessage
    else Cards(Pagination.PageSlice(posts, currentPage, PostsPerPage),
               Pagination.TotalPages(|posts|, PostsPerPage))
  }

  /**
   * An empty list shows only the message; otherwise every page in range
   * shows between one and six cards, and the page count covers every post.
   */
  lemma FeedShape(posts: seq<Post>, currentPage: int)
    ensures FeedView(posts, currentPage).EmptyMessage? <==> |posts| == 0
    ensures FeedView(posts, currentPage).Cards? ==>
      var v := FeedView(posts, currentPage);
      && v.totalPages >= 1
      && |posts| <= v.totalPages * PostsPerPage
      && (1 <= currentPage <= v.totalPages ==> 1 <= |v.cards| <= PostsPerPage)
  {
    if |posts| > 0 && 1 <= currentPage <= Pagination.TotalPages(|posts|, PostsPerPage) {
      Pagination.PageContents(posts, currentPage, PostsPerPage);
      var t := Pagination.TotalPages(|posts|, PostsPerPage);
      Pagination.MulMonotone(currentPage - 1, t - 1, PostsPerPage);
      Pagination.MulDistributes(currentPage, PostsPerPage);
    }
  }
}
