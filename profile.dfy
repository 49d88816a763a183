/**
 * The profile page (pages/Profile.tsx): the session user's own posts, newest
 * first, computed on a fresh list so the shared posts keep their order.
 */
module Profile {
  import opened Types
  import opened Home

  /** `posts.filter(post => post.author.id === uid)` */
  function AuthoredBy(posts: seq<Post>, uid: string): (r: seq<Post>)
    ensures forall p :: p in r ==> p in posts && p.author.id == uid
    ensures forall p :: p in posts && p.author.id == uid ==> p in r
    ensures multiset(r) <= multiset(posts)
    ensures |r| <= |posts|
  {
    if |posts| == 0 then []
    else
      assert posts == [posts[0]] + posts[1..];
      if posts[0].author.id == uid then [posts[0]] + AuthoredBy(posts[1..], uid)
      else AuthoredBy(posts[1..], uid)
  }

  /** The list the page shows: the user's posts, newest first. */
  function ProfilePosts(posts: seq<Post>, user: User): (r: seq<Post>)
    ensures NewestFirst(r)
    ensures forall p :: p in r <==> p in posts && p.author.id == user.id
    ensures multiset(r) == multiset(AuthoredBy(posts, user.id))
  {
    var r := SortNewestFirst(AuthoredBy(posts, user.id));
    assert forall p :: p in r <==> p in multiset(AuthoredBy(posts, user.id));
    r
  }

  /** The "Posts" counter. */
  function PostCount(posts: seq<Post>, user: User): nat {
    |ProfilePosts(posts, user)|
  }

  /** What the page shows: the spinner with nobody logged in, else the list. */
  function Screen(posts: seq<Post>, user: Option<User>): (r: Option<seq<Post>>)
    ensures r.None? <==> user.None?
    ensures r.Some? ==> r.value == ProfilePosts(posts, user.value)
  {
    if user.None? then None else Some(ProfilePosts(posts, user.value))
  }

  /** The counter is the number of the user's posts in the shared list. */
  lemma {:induction false} CountIsAuthoredPosts(posts: seq<Post>, user: User)
    ensures PostCount(posts, user) == |AuthoredBy(posts, user.id)|
    ensures PostCount([], user) == 0
  {
    var r := ProfilePosts(posts, user);
    assert |r| == |multiset(r)|;
    assert |AuthoredBy(posts, user.id)| == |multiset(AuthoredBy(posts, user.id))|;
  }

  /** A newly prepended post counts for its author and for nobody else. */
  lemma {:induction false} NewPostCounts(posts: seq<Post>, np: Post, user: User)
    ensures PostCount([np] + posts, user)
         == PostCount(posts, user) + (if np.author.id == user.id then 1 else 0)
  {
    assert ([np] + posts)[1..] == posts;
    CountIsAuthoredPosts([np] + posts, user);
    CountIsAuthoredPosts(posts, user);
  }

  /** Reordering the shared list (as the feed does) changes nobody's profile. */
  lemma {:induction false} ProfileIgnoresOrder(posts: seq<Post>, user: User)
    ensures multiset(ProfilePosts(SortNewestFirst(posts), user)) == multiset(ProfilePosts(posts, user))
  {
    AuthoredPermutation(posts, SortNewestFirst(posts), user.id);
  }

  lemma {:induction false} AuthoredPermutation(a: seq<Post>, b: seq<Post>, uid: string)
    requires multiset(a) == multiset(b)
    ensures multiset(AuthoredBy(a, uid)) == multiset(AuthoredBy(b, uid))
  {
    forall p ensures multiset(AuthoredBy(a, uid))[p] == multiset(AuthoredBy(b, uid))[p] {
      AuthoredCount(a, uid, p);
      AuthoredCount(b, uid, p);
    }
    assert multiset(AuthoredBy(a, uid)) == multiset(AuthoredBy(b, uid));
  }

  /** Filtering keeps every copy of a matching post and none of the others. */
  lemma {:induction false} AuthoredCount(s: seq<Post>, uid: string, p: Post)
    ensures multiset(AuthoredBy(s, uid))[p] == if p.author.id == uid then multiset(s)[p] else 0
    decreases |s|
  {
    if |s| > 0 {
      assert s == [s[0]] + s[1..];
      AuthoredCount(s[1..], uid, p);
    }
  }
}
