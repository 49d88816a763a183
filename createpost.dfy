/**
 * The create page (pages/CreatePost.tsx): a complete form by a logged-in
 * user becomes a new post at the front of the shared list.
 */
module CreatePost {
  import opened Types
  import opened AppStore
  import opened PostForm
  import opened SeqUtil
  import Home
  import Profile

  /** The record `handleSubmit` builds; `stamp` is the decimal text of `Date.now()`. */
  function NewPost(stamp: string, title: string, description: string, image: string,
                   author: User, now: Timestamp): (p: Post)
    ensures p.likes == [] && p.comments == [] && p.author == author && p.createdAt == now
    ensures p.title == title && p.description == description && p.image == image
  {
    Post("post_" + stamp, title, description, image, author, [], [], now)
  }

  /**
   * `handleSubmit`: without a user or with an incomplete form the error is
   * set and nothing is added; otherwise the post goes in at index 0.
   */
  method Submit(form: Form, s: Store, stamp: string, now: Timestamp)
    modifies form, s
    ensures form.title == old(form.title) && form.description == old(form.description)
    ensures form.image == old(form.image) && form.imagePrompt == old(form.imagePrompt)
    ensures form.aspectRatio == old(form.aspectRatio) && form.isGenerating == old(form.isGenerating)
    ensures s.currentUser.None? || !old(form.IsFilled()) ==>
      && s.posts == old(s.posts) && form.error == FillAllMessage
    ensures s.currentUser.Some? && old(form.IsFilled()) ==>
      && s.posts == [NewPost(stamp, form.title, form.description, form.image.value, s.currentUser.value, now)]
                    + old(s.posts)
      && form.error == old(form.error)
    ensures s.users == old(s.users) && s.reports == old(s.reports) && s.currentUser == old(s.currentUser)
  {
    if s.currentUser.None? || !form.IsFilled() {
      form.error := FillAllMessage;
      return;
    }
    var p := NewPost(stamp, form.title, form.description, form.image.value, s.currentUser.value, now);
    s.posts := [p] + s.posts;
  }

  /**
   * A post created at a time no earlier than any other heads the feed, and
   * raises its author's profile count by one and nobody else's.
   */
  lemma CreatedPostIsSeen(posts: seq<Post>, p: Post, viewer: User)
    requires forall q :: q in posts ==> q.createdAt <= p.createdAt
    ensures Home.SortNewestFirst([p] + posts)[0] == p
    ensures Profile.PostCount([p] + posts, viewer)
         == Profile.PostCount(posts, viewer) + (if viewer.id == p.author.id then 1 else 0)
  {
    Home.NewestPostLeads(p, posts);
    Profile.NewPostCounts(posts, p, viewer);
  }

  /**
   * After creation the new post is what a lookup of its id finds, and
   * lookups of other ids find what they found before.
   */
  lemma CreationPrepends(posts: seq<Post>, p: Post, other: string)
    requires other != p.id
    ensures Find([p] + posts, PostId, p.id) == Some(p)
    ensures Find([p] + posts, PostId, other) == Find(posts, PostId, other)
  {
    FirstIndexCons(p, posts, PostId, p.id);
    FirstIndexCons(p, posts, PostId, other);
    var i := FirstIndex(posts, PostId, other);
    if i != -1 {
      assert ([p] + posts)[i + 1] == posts[i];
    }
  }

  /** Deleting the new post from its detail page (the splice at the first match) gives back the previous list. */
  lemma DeleteUndoesCreation(posts: seq<Post>, p: Post)
    ensures RemoveFirst([p] + posts, PostId, p.id) == posts
  {
    FirstIndexCons(p, posts, PostId, p.id);
    var r := RemoveAt([p] + posts, 0);
    assert |r| == |posts|;
    assert forall j :: 0 <= j < |r| ==> r[j] == posts[j];
  }
}
