/**
 * The post page (pages/PostDetail.tsx). Likes and comments replace the
 * page's own copy of the post with a new record and never touch the shared
 * list; deleting a post and filing a report change the shared lists.
 */
module PostDetail {
  import opened Types
  import opened SeqUtil
  import opened AppStore
  import Text
  import ReportModal

  function Same(s: string): string { s }

  ghost predicate NoDuplicates(ids: seq<string>) {
    forall i, j :: 0 <= i < |ids| && 0 <= j < |ids| && ids[i] == ids[j] ==> i == j
  }

  /** The record `handleLike` builds: drop every copy of the id if present, else append it. */
  function ToggleLike(p: Post, uid: string): Post {
    if uid in p.likes then p.(likes := RemoveAll(p.likes, Same, uid))
    else p.(likes := p.likes + [uid])
  }

  /**
   * A like toggle flips whether the user likes the post, leaves every other
   * user's like and every other field as it was, and keeps a duplicate-free
   * list duplicate-free.
   */
  lemma ToggleLikeLaws(p: Post, uid: string)
    ensures uid in ToggleLike(p, uid).likes <==> uid !in p.likes
    ensures forall v :: v != uid ==> (v in ToggleLike(p, uid).likes <==> v in p.likes)
    ensures ToggleLike(p, uid).(likes := p.likes) == p
    ensures uid !in p.likes ==> |ToggleLike(p, uid).likes| == |p.likes| + 1
    ensures uid in p.likes ==> |ToggleLike(p, uid).likes| < |p.likes|
    ensures NoDuplicates(p.likes) ==> NoDuplicates(ToggleLike(p, uid).likes)
  {
    var r := ToggleLike(p, uid).likes;
    if uid in p.likes {
      forall v | v != uid ensures v in r <==> v in p.likes {
        assert Same(v) == v;
      }
      var k :| 0 <= k < |p.likes| && p.likes[k] == uid;
      RemoveAllShorter(p.likes, Same, uid, k);
      if NoDuplicates(p.likes) {
        FilterKeepsNoDuplicates(p.likes, uid);
      }
    }
  }

  lemma {:induction false} RemoveAllShorter(s: seq<string>, key: string -> string, k: string, at: nat)
    requires at < |s| && key(s[at]) == k
    ensures |RemoveAll(s, key, k)| < |s|
    decreases |s|
  {
    if at > 0 {
      RemoveAllShorter(s[1..], key, k, at - 1);
    }
  }

  lemma {:induction false} FilterKeepsNoDuplicates(s: seq<string>, uid: string)
    requires NoDuplicates(s)
    ensures NoDuplicates(RemoveAll(s, Same, uid))
    decreases |s|
  {
    if |s| > 0 {
      var t := s[1..];
      assert NoDuplicates(t) by {
        forall i, j | 0 <= i < |t| && 0 <= j < |t| && t[i] == t[j] ensures i == j {
          assert s[i + 1] == s[j + 1];
        }
      }
      FilterKeepsNoDuplicates(t, uid);
      if s[0] != uid {
        assert s[0] !in t by {
          forall j | 0 <= j < |t| ensures t[j] != s[0] {
            assert s[j + 1] != s[0];
          }
        }
        var r := RemoveAll(t, Same, uid);
        assert s[0] !in r;
        assert RemoveAll(s, Same, uid) == [s[0]] + r;
      }
    }
  }

  /** Liking a post one has not liked, then toggling again, gives the post back. */
  lemma LikeThenUnlike(p: Post, uid: string)
    requires uid !in p.likes
    ensures ToggleLike(ToggleLike(p, uid), uid) == p
  {
    var added := p.likes + [uid];
    assert uid in added;
    forall j | 0 <= j < |p.likes| ensures Same(p.likes[j]) != uid { }
    RemoveAllNoMatch(p.likes, Same, uid);
    RemoveAllAppend(p.likes, uid);
  }

  lemma {:induction false} RemoveAllAppend(s: seq<string>, uid: string)
    ensures RemoveAll(s + [uid], Same, uid) == RemoveAll(s, Same, uid)
    decreases |s|
  {
    if |s| == 0 {
      assert s + [uid] == [uid];
    } else {
      assert (s + [uid])[1..] == s[1..] + [uid];
      RemoveAllAppend(s[1..], uid);
    }
  }

  /** The record `handleCommentSubmit` builds: the comment goes last. */
  function WithComment(p: Post, c: Comment): (r: Post)
    ensures |r.comments| == |p.comments| + 1
    ensures r.comments[|p.comments|] == c
    ensures r.comments[..|p.comments|] == p.comments
    ensures r.(comments := p.comments) == p
  {
    p.(comments := p.comments + [c])
  }

  // ---- permission flags of the rendered page ----

  function IsAuthor(user: Option<User>, p: Post): bool {
    user.Some? && p.author.id == user.value.id
  }

  function IsAdmin(user: Option<User>): bool {
    user.Some? && user.value.role == AdminRole
  }

  /** Edit and Delete are shown to the author and to admins. */
  function CanEdit(user: Option<User>, p: Post): (ok: bool)
    ensures ok <==> user.Some? && (p.author.id == user.value.id || user.value.role == AdminRole)
  {
    IsAuthor(user, p) || IsAdmin(user)
  }

  /** Report Post is shown to a logged-in reader who did not write the post. */
  function CanReportPost(user: Option<User>, p: Post): (ok: bool)
    ensures ok <==> user.Some? && p.author.id != user.value.id
  {
    user.Some? && !IsAuthor(user, p)
  }

  /** The flag on a comment is shown to a logged-in reader who did not write the comment. */
  function CanReportComment(user: Option<User>, c: Comment): (ok: bool)
    ensures ok <==> user.Some? && c.author.id != user.value.id
  {
    user.Some? && user.value.id != c.author.id
  }

  /** Nobody may report their own post, and anonymous visitors can do neither. */
  lemma PermissionsExclusive(user: Option<User>, p: Post)
    ensures IsAuthor(user, p) ==> CanEdit(user, p) && !CanReportPost(user, p)
    ensures user.None? ==> !CanEdit(user, p) && !CanReportPost(user, p)
    ensures IsAdmin(user) && !IsAuthor(user, p) ==> CanEdit(user, p) && CanReportPost(user, p)
  {
  }

  /**
   * The same rule for comments: the comment a user has just added (as
   * `handleAddComment` builds it) carries no report button for that user,
   * nor for an anonymous visitor, while every other logged-in user, admin
   * or not, may report it.
   */
  lemma OwnCommentNotReportable(p: Post, id: string, text: string, u: User, now: Timestamp, other: Option<User>)
    ensures var added := WithComment(p, Comment(id, text, u, now)).comments[|p.comments|];
      && !CanReportComment(Some(u), added)
      && !CanReportComment(None, added)
      && (other.Some? && other.value.id != u.id ==> CanReportComment(other, added))
  {
  }

  datatype Target = Target(kind: ContentKind, id: string)

  /** What the page shows. */
  datatype Screen = Loading | NotFound | Shown(post: Post)

  class Page {
    const routeId: string
    const store: Store
    var post: Option<Post>
    var newComment: string
    var loading: bool
    var modalOpen: bool
    var reporting: Option<Target>

    constructor (routeId: string, store: Store)
      ensures this.routeId == routeId && this.store == store
      ensures post == None && newComment == "" && loading
      ensures !modalOpen && reporting == None
    {
      this.routeId := routeId;
      this.store := store;
      post := None;
      newComment := "";
      loading := true;
      modalOpen := false;
      reporting := None;
    }

    /** The spinner, the "Post not found." message, or the post. */
    function View(): (v: Screen)
      reads this
      ensures v.Loading? <==> loading
      ensures v.NotFound? <==> !loading && post.None?
      ensures v.Shown? ==> post == Some(v.post)
    {
      if loading then Loading
      else if post.None? then NotFound
      else Shown(post.value)
    }

    /** The `useEffect` load: the first shared post with the route id, if any. */
    method Load()
      modifies this
      ensures var found := Find(store.posts, PostId, routeId);
        post == (if found.Some? then found else old(post))
      ensures !loading
      ensures var found := Find(store.posts, PostId, routeId);
        && (found.Some? ==> View() == Shown(found.value))
        && (found.None? && old(post).None? ==> View() == NotFound)
      ensures newComment == old(newComment) && modalOpen == old(modalOpen) && reporting == old(reporting)
    {
      var found := Find(store.posts, PostId, routeId);
      if found.Some? {
        post := found;
      }
      loading := false;
    }

    /** `handleLike`: only the page's copy changes. */
    method Like()
      modifies this
      ensures store.currentUser.None? || old(post).None? ==> post == old(post)
      ensures store.currentUser.Some? && old(post).Some? ==>
        post == Some(ToggleLike(old(post).value, store.currentUser.value.id))
      ensures store.posts == old(store.posts)
      ensures newComment == old(newComment) && loading == old(loading)
      ensures modalOpen == old(modalOpen) && reporting == old(reporting)
    {
      if store.currentUser.None? || post.None? {
        return;
      }
      post := Some(ToggleLike(post.value, store.currentUser.value.id));
    }

    method SetNewComment(text: string)
      modifies this
      ensures newComment == text && post == old(post)
      ensures loading == old(loading) && modalOpen == old(modalOpen) && reporting == old(reporting)
    {
      newComment := text;
    }

    /**
     * `handleCommentSubmit`: refused without a user, a post or a non-blank
     * text; otherwise the untrimmed text is appended to the page's copy as a
     * comment by the session user and the field is cleared.
     */
    method SubmitComment(stamp: string, now: Timestamp)
      modifies this
      ensures store.currentUser.None? || old(post).None? || Text.IsBlank(old(newComment)) ==>
        post == old(post) && newComment == old(newComment)
      ensures store.currentUser.Some? && old(post).Some? && !Text.IsBlank(old(newComment)) ==>
        && post == Some(WithComment(old(post).value,
                          Comment("comment_" + stamp, old(newComment), store.currentUser.value, now)))
        && newComment == ""
      ensures store.posts == old(store.posts)
      ensures loading == old(loading) && modalOpen == old(modalOpen) && reporting == old(reporting)
    {
      if store.currentUser.None? || post.None? || Text.IsBlank(newComment) {
        return;
      }
      var c := Comment("comment_" + stamp, newComment, store.currentUser.value, now);
      post := Some(WithComment(post.value, c));
      newComment := "";
    }

    /** `handleDeletePost`: splice the first shared post with the route id; nothing else changes. */
    method DeletePost()
      modifies store
      ensures store.posts == RemoveFirst(old(store.posts), PostId, routeId)
      ensures store.users == old(store.users) && store.reports == old(store.reports)
      ensures store.currentUser == old(store.currentUser)
    {
      store.posts := RemoveFirst(store.posts, PostId, routeId);
    }

    /** `openReportModal` */
    method OpenReport(kind: ContentKind, id: string)
      modifies this
      ensures modalOpen && reporting == Some(Target(kind, id))
      ensures post == old(post) && newComment == old(newComment) && loading == old(loading)
    {
      reporting := Some(Target(kind, id));
      modalOpen := true;
    }

    /** The dialog's `onClose`: the target is kept. */
    method CloseReport()
      modifies this
      ensures !modalOpen && reporting == old(reporting)
      ensures post == old(post) && newComment == old(newComment) && loading == old(loading)
    {
      modalOpen := false;
    }

    /**
     * `handleReportSubmit`: a pending report about the target, linked to the
     * shown post and filed by the session user, goes to the front of the
     * shared reports, and the dialog closes.
     */
    method SubmitReport(reason: string, stamp: string, now: Timestamp)
      modifies this, store
      ensures store.currentUser.None? || old(reporting).None? || old(post).None? ==>
        && store.reports == old(store.reports)
        && modalOpen == old(modalOpen) && reporting == old(reporting)
      ensures store.currentUser.Some? && old(reporting).Some? && old(post).Some? ==>
        && store.reports == [Report("report_" + stamp, old(reporting).value.kind, old(reporting).value.id,
                                    old(post).value.id, store.currentUser.value, reason, now, Pending)]
                            + old(store.reports)
        && !modalOpen && reporting == None
      ensures post == old(post) && newComment == old(newComment) && loading == old(loading)
      ensures store.posts == old(store.posts) && store.users == old(store.users)
      ensures store.currentUser == old(store.currentUser)
    {
      if store.currentUser.None? || reporting.None? || post.None? {
        return;
      }
      var r := Report("report_" + stamp, reporting.value.kind, reporting.value.id,
                      post.value.id, store.currentUser.value, reason, now, Pending);
      store.reports := [r] + store.reports;
      modalOpen := false;
      reporting := None;
    }

    /**
     * The dialog's submit button wired to `handleReportSubmit`: the dialog
     * renders only while open, and a report is filed only with a reason that
     * is not blank.
     */
    method SubmitFromDialog(dialog: ReportModal.Dialog, stamp: string, now: Timestamp)
      modifies this, store, dialog
      ensures |store.reports| == |old(store.reports)| || |store.reports| == |old(store.reports)| + 1
      ensures |store.reports| == |old(store.reports)| + 1 ==>
        && !Text.IsBlank(store.reports[0].reason)
        && store.reports[0].status == Pending
        && store.reports[1..] == old(store.reports)
      ensures store.posts == old(store.posts) && store.users == old(store.users)
    {
      if !modalOpen {
        return;
      }
      var submitted := dialog.Submit();
      if submitted.Some? {
        SubmitReport(submitted.value, stamp, now);
      }
    }
  }
}
