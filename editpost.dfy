/**
 * The edit page (pages/EditPost.tsx): loads the post with the route id for
 * its author or an admin, and on submit replaces that post's title,
 * description and image in place in the shared list.
 */
module EditPost {
  import opened Types
  import opened SeqUtil
  import opened AppStore
  import opened PostForm
  import PostDetail

  const NotAuthorizedMessage: string := "You are not authorized to edit this post."
  const NotFoundMessage: string := "Post not found."
  const GoneMessage: string := "Failed to update the post. It might have been deleted."

  /** What the load effect decides. */
  datatype Decision = Authorized(post: Post) | Unauthorized | Missing

  /**
   * The load check: a missing post, a post the user may not edit (the same
   * rule that shows Edit on the post page), or the post to edit.
   */
  function Decide(posts: seq<Post>, routeId: string, user: Option<User>): (d: Decision)
    ensures d.Missing? <==> Find(posts, PostId, routeId).None?
    ensures d.Authorized? <==>
      Find(posts, PostId, routeId).Some? && PostDetail.CanEdit(user, Find(posts, PostId, routeId).value)
    ensures d.Authorized? ==> d.post == Find(posts, PostId, routeId).value && d.post.id == routeId
  {
    match Find(posts, PostId, routeId)
    case None => Missing
    case Some(p) => if PostDetail.CanEdit(user, p) then Authorized(p) else Unauthorized
  }

  /** The replacement record `{ ...post, title, description, image }`. */
  function Edited(p: Post, title: string, description: string, image: string): Post {
    p.(title := title, description := description, image := image)
  }

  /**
   * An edit keeps the post's id, author, likes, comments and creation time;
   * resubmitting the same form changes nothing more, and submitting the
   * loaded values unchanged gives the post back.
   */
  lemma EditedLaws(p: Post, title: string, description: string, image: string)
    ensures var e := Edited(p, title, description, image);
      && e.id == p.id && e.author == p.author && e.likes == p.likes
      && e.comments == p.comments && e.createdAt == p.createdAt
      && e.title == title && e.description == description && e.image == image
      && Edited(e, title, description, image) == e
    ensures Edited(p, p.title, p.description, p.image) == p
  {
  }

  /** The error heading of a page with no post to edit. */
  function Heading(error: string): (h: string)
    ensures h != ""
    ensures error != "" ==> h == error
    ensures error == "" ==> h == NotFoundMessage
  {
    if error != "" then error else NotFoundMessage
  }

  datatype Screen = Loading | Refused(heading: string) | Editing

  class Page {
    const routeId: string
    const store: Store
    const form: Form
    var post: Option<Post>
    var loading: bool

    constructor (routeId: string, store: Store, form: Form)
      ensures this.routeId == routeId && this.store == store && this.form == form
      ensures post == None && loading
    {
      this.routeId := routeId;
      this.store := store;
      this.form := form;
      post := None;
      loading := true;
    }

    /** The spinner, the refusal with its heading, or the form. */
    function View(): (v: Screen)
      reads this, form
      ensures v.Loading? <==> loading
      ensures v.Editing? <==> !loading && post.Some?
      ensures v.Refused? ==> v.heading != "" && v.heading == Heading(form.error)
    {
      if loading then Loading
      else if post.None? then Refused(Heading(form.error))
      else Editing
    }

    /**
     * The load effect: an authorized user gets the form filled from the post;
     * otherwise the error says why (the redirect home is not modelled).
     */
    method Load()
      modifies this, form
      ensures !loading
      ensures match Decide(store.posts, routeId, store.currentUser)
        case Authorized(p) =>
          && post == Some(p) && form.title == p.title && form.description == p.description
          && form.image == Some(p.image) && form.error == old(form.error)
        case Unauthorized =>
          && post == old(post) && form.error == NotAuthorizedMessage
          && form.title == old(form.title) && form.description == old(form.description)
          && form.image == old(form.image)
        case Missing =>
          && post == old(post) && form.error == NotFoundMessage
          && form.title == old(form.title) && form.description == old(form.description)
          && form.image == old(form.image)
      ensures match Decide(store.posts, routeId, store.currentUser)
        case Authorized(_) => View() == Editing
        case Unauthorized => old(post).None? ==> View() == Refused(NotAuthorizedMessage)
        case Missing => old(post).None? ==> View() == Refused(NotFoundMessage)
      ensures form.imagePrompt == old(form.imagePrompt) && form.aspectRatio == old(form.aspectRatio)
      ensures form.isGenerating == old(form.isGenerating)
    {
      var d := Decide(store.posts, routeId, store.currentUser);
      match d {
        case Authorized(p) =>
          post := Some(p);
          form.title := p.title;
          form.description := p.description;
          form.image := Some(p.image);
        case Unauthorized =>
          form.error := NotAuthorizedMessage;
        case Missing =>
          form.error := NotFoundMessage;
      }
      loading := false;
    }

    /**
     * `handleSubmit`: an incomplete form sets the error; a post that is gone
     * sets another; otherwise the first shared post with the route id gets
     * the form's title, description and image and nothing else changes.
     */
    method Submit()
      modifies store, form
      ensures form.title == old(form.title) && form.description == old(form.description)
      ensures form.image == old(form.image) && form.imagePrompt == old(form.imagePrompt)
      ensures form.aspectRatio == old(form.aspectRatio) && form.isGenerating == old(form.isGenerating)
      ensures !old(form.IsFilled()) ==> store.posts == old(store.posts) && form.error == FillAllMessage
      ensures old(form.IsFilled()) ==>
        var i := FirstIndex(old(store.posts), PostId, routeId);
        && (i == -1 ==> store.posts == old(store.posts) && form.error == GoneMessage)
        && (i != -1 ==>
              && store.posts == old(store.posts)[i := Edited(old(store.posts)[i], form.title, form.description, form.image.value)]
              && form.error == old(form.error))
      ensures store.users == old(store.users) && store.reports == old(store.reports)
      ensures store.currentUser == old(store.currentUser)
    {
      if !form.IsFilled() {
        form.error := FillAllMessage;
        return;
      }
      var i := FirstIndex(store.posts, PostId, routeId);
      if i != -1 {
        store.posts := store.posts[i := Edited(store.posts[i], form.title, form.description, form.image.value)];
      } else {
        form.error := GoneMessage;
      }
    }
  }

  /** An edit keeps the list's length and every post's id, so later lookups find the same posts. */
  lemma EditKeepsLookups(posts: seq<Post>, i: nat, title: string, description: string, image: string, k: string)
    requires i < |posts|
    ensures var after := posts[i := Edited(posts[i], title, description, image)];
      |after| == |posts| && FirstIndex(after, PostId, k) == FirstIndex(posts, PostId, k)
  {
    var after := posts[i := Edited(posts[i], title, description, image)];
    FirstIndexSameKeys(posts, after, PostId, k);
  }
}
