/**
 * The moderation dashboard (pages/AdminDashboard.tsx). The page keeps its own
 * copies of the posts, users and reports, taken from the shared lists when it
 * opens; every action updates the copy with `filter`/`map` and the shared list
 * at the first index with that id.
 */
module AdminDashboard {
  import opened Types
  import opened SeqUtil
  import opened AppStore
  import Text
  import Pagination
  import App

  const PostsPerPage: nat := 5

  // ---- pure parts ----

  /** The role the toggle button switches to. */
  function Flip(r: Role): (f: Role)
    ensures f != r
  {
    if r == AdminRole then UserRole else AdminRole
  }

  /** `users.map(u => u.id === id ? { ...u, role } : u)` */
  function SetRoleWhere(users: seq<User>, id: string, role: Role): seq<User> {
    seq(|users|, j requires 0 <= j < |users| =>
      if users[j].id == id then users[j].(role := role) else users[j])
  }

  /** The page's own user list after `toggleUserRole(id)`. */
  function Toggled(users: seq<User>, id: string): seq<User> {
    match Find(users, UserId, id)
    case None => users
    case Some(u) => SetRoleWhere(users, id, Flip(u.role))
  }

  /**
   * Toggling changes only the role, and only of the users with that id, all to
   * the opposite of the first one's role; an absent id changes nothing.
   */
  lemma ToggleChangesOnlyTarget(users: seq<User>, id: string)
    ensures |Toggled(users, id)| == |users|
    ensures (forall j :: 0 <= j < |users| ==> users[j].id != id) ==> Toggled(users, id) == users
    ensures forall j :: 0 <= j < |users| && users[j].id != id ==> Toggled(users, id)[j] == users[j]
    ensures forall j :: 0 <= j < |users| && users[j].id == id ==>
      && Toggled(users, id)[j] == users[j].(role := Flip(users[FirstIndex(users, UserId, id)].role))
      && Toggled(users, id)[j].role != users[FirstIndex(users, UserId, id)].role
  {
  }

  /** With unique ids, toggling twice gives back the original list. */
  lemma ToggleTwice(users: seq<User>, id: string)
    requires UniqueKeys(users, UserId)
    ensures Toggled(Toggled(users, id), id) == users
  {
    var once := Toggled(users, id);
    var i := FirstIndex(users, UserId, id);
    if i >= 0 {
      FirstIndexSameKeys(users, once, UserId, id);
      assert forall j :: 0 <= j < |users| && users[j].id == id ==> j == i;
      assert Toggled(once, id) == users;
    }
  }

  /** The shared list after the field assignment `MOCK_USERS[i].role = role`. */
  function SetFirstRole(users: seq<User>, id: string, role: Role): seq<User> {
    var i := FirstIndex(users, UserId, id);
    if i == -1 then users else users[i := users[i].(role := role)]
  }

  /** `reports.map(r => r.id === id ? { ...r, status: 'resolved' } : r)` */
  function ResolveAll(reports: seq<Report>, id: string): seq<Report> {
    seq(|reports|, j requires 0 <= j < |reports| =>
      if reports[j].id == id then reports[j].(status := Resolved) else reports[j])
  }

  /** `MOCK_REPORTS[i].status = 'resolved'` at the first index with that id. */
  function ResolveFirst(reports: seq<Report>, id: string): seq<Report> {
    var i := FirstIndex(reports, ReportId, id);
    if i == -1 then reports else reports[i := reports[i].(status := Resolved)]
  }

  /**
   * Resolving marks the reports with that id resolved, changes no other
   * field and no other report, and a second resolve changes nothing.
   */
  lemma ResolveLaws(reports: seq<Report>, id: string)
    ensures |ResolveAll(reports, id)| == |reports|
    ensures forall j :: 0 <= j < |reports| && reports[j].id != id ==> ResolveAll(reports, id)[j] == reports[j]
    ensures forall j :: 0 <= j < |reports| && reports[j].id == id ==>
      ResolveAll(reports, id)[j] == reports[j].(status := Resolved)
    ensures ResolveAll(ResolveAll(reports, id), id) == ResolveAll(reports, id)
    ensures ResolveFirst(ResolveFirst(reports, id), id) == ResolveFirst(reports, id)
  {
    var once := ResolveFirst(reports, id);
    FirstIndexSameKeys(reports, once, ReportId, id);
  }

  /** The page's copy and the shared list agree after a resolve when report ids are unique. */
  lemma ResolveCopiesAgree(reports: seq<Report>, id: string)
    requires UniqueKeys(reports, ReportId)
    ensures ResolveAll(reports, id) == ResolveFirst(reports, id)
  {
    var i := FirstIndex(reports, ReportId, id);
    assert forall j :: 0 <= j < |reports| && reports[j].id == id ==> j == i;
  }

  /** The header count: reports still pending. */
  function PendingCount(reports: seq<Report>): (n: nat)
    ensures n <= |reports|
    ensures n == 0 <==> forall j :: 0 <= j < |reports| ==> reports[j].status == Resolved
  {
    if |reports| == 0 then 0
    else (if reports[0].status == Pending then 1 else 0) + PendingCount(reports[1..])
  }

  /** A new pending report raises the count by one. */
  lemma PendingCountOfNewReport(r: Report, reports: seq<Report>)
    requires r.status == Pending
    ensures PendingCount([r] + reports) == PendingCount(reports) + 1
  {
    assert ([r] + reports)[1..] == reports;
  }

  /** Resolving never raises the count, and lowers it when a pending report has that id. */
  lemma {:induction false} ResolveLowersPending(reports: seq<Report>, id: string)
    ensures PendingCount(ResolveAll(reports, id)) <= PendingCount(reports)
    ensures (exists j :: 0 <= j < |reports| && reports[j].id == id && reports[j].status == Pending) ==>
      PendingCount(ResolveAll(reports, id)) < PendingCount(reports)
    decreases |reports|
  {
    if |reports| > 0 {
      var r := ResolveAll(reports, id);
      ResolveLowersPending(reports[1..], id);
      assert r[1..] == ResolveAll(reports[1..], id);
      if exists j :: 0 <= j < |reports| && reports[j].id == id && reports[j].status == Pending {
        var j :| 0 <= j < |reports| && reports[j].id == id && reports[j].status == Pending;
        if j > 0 {
          assert reports[1..][j - 1] == reports[j];
        }
      }
    }
  }

  /** The resolve and delete buttons appear only on pending reports. */
  function ActionsOffered(report: Report): bool {
    report.status == Pending
  }

  /** After a resolve no report with that id offers actions again. */
  lemma ResolvedOffersNoActions(reports: seq<Report>, id: string)
    ensures forall j :: 0 <= j < |ResolveAll(reports, id)| && ResolveAll(reports, id)[j].id == id ==>
      !ActionsOffered(ResolveAll(reports, id)[j])
  {
  }

  /** The role and delete buttons are disabled on the admin's own row. */
  function CanManage(target: User, admin: Option<User>): (ok: bool)
    ensures !ok <==> admin.Some? && admin.value.id == target.id
  {
    !(admin.Some? && target.id == admin.value.id)
  }

  /**
   * Over a list with unique ids, the logged-in admin's own record is the only
   * row whose buttons are disabled; anonymous or not, every other row is
   * manageable. Deleting or toggling a manageable row leaves the admin's own
   * record in place and unchanged, so the dashboard cannot lock its user out.
   */
  lemma OnlyOwnRowIsLocked(users: seq<User>, admin: User, target: User)
    requires UniqueKeys(users, UserId)
    requires admin in users
    ensures forall j :: 0 <= j < |users| ==> (!CanManage(users[j], Some(admin)) <==> users[j] == admin)
    ensures forall j :: 0 <= j < |users| ==> CanManage(users[j], None)
    ensures CanManage(target, Some(admin)) ==>
      && admin in RemoveAll(users, UserId, target.id)
      && admin in Toggled(users, target.id)
  {
    var k :| 0 <= k < |users| && users[k] == admin;
    if CanManage(target, Some(admin)) {
      ToggleChangesOnlyTarget(users, target.id);
      assert Toggled(users, target.id)[k] == admin;
    }
  }

  datatype Preview = Preview(text: string, link: string)

  function PostLink(id: string): string { "/post/" + id }

  /** `getContentPreview`: what the Content cell shows and where it links. */
  function ContentPreview(report: Report, posts: seq<Post>): (p: Preview)
    ensures report.kind == PostKind ==>
      (p.link == "#" <==> Find(posts, PostId, report.contentId).None?)
    ensures report.kind == CommentKind ==>
      (p.link == "#" <==> Find(posts, PostId, report.postId).None?)
    ensures report.kind == PostKind && Find(posts, PostId, report.contentId).None? ==>
      p == Preview("Deleted Post", "#")
    ensures report.kind == PostKind && Find(posts, PostId, report.contentId).Some? ==>
      p == Preview("Post: \"" + Find(posts, PostId, report.contentId).value.title + "\"",
                   PostLink(report.contentId))
    ensures report.kind == CommentKind && Find(posts, PostId, report.postId).Some? ==>
      p.link == PostLink(report.postId)
    ensures report.kind == CommentKind ==>
      (p.text == "Deleted Comment" <==>
        (Find(posts, PostId, report.postId).None? ||
         Find(Find(posts, PostId, report.postId).value.comments, CommentId, report.contentId).None?))
  {
    if report.kind == PostKind then
      match Find(posts, PostId, report.contentId)
      case Some(post) => Preview("Post: \"" + post.title + "\"", PostLink(post.id))
      case None => Preview("Deleted Post", "#")
    else
      match Find(posts, PostId, report.postId)
      case None => Preview("Deleted Comment", "#")
      case Some(post) =>
        var text := match Find(post.comments, CommentId, report.contentId)
          case None => "Deleted Comment"
          case Some(c) =>
            var quoted := "Comment: \"" + Text.Prefix(c.text, 30) + "...\"";
            assert quoted[0] == 'C';
            quoted;
        Preview(text, PostLink(post.id))
  }

  /**
   * A comment preview quotes the first 30 characters of the comment (all of a
   * shorter one), followed by an ellipsis whatever the length.
   */
  lemma CommentPreviewQuotesPrefix(report: Report, posts: seq<Post>)
    requires report.kind == CommentKind
    requires Find(posts, PostId, report.postId).Some?
    requires Find(Find(posts, PostId, report.postId).value.comments, CommentId, report.contentId).Some?
    ensures var c := Find(Find(posts, PostId, report.postId).value.comments, CommentId, report.contentId).value;
      ContentPreview(report, posts).text
        == "Comment: \"" + c.text[..Pagination.Min(30, |c.text|)] + "...\""
  {
    var c := Find(Find(posts, PostId, report.postId).value.comments, CommentId, report.contentId).value;
    assert Text.Prefix(c.text, 30) == c.text[..Pagination.Min(30, |c.text|)];
  }

  /** Every link a preview offers, other than "#", opens the post's own detail route. */
  lemma PreviewLinksToPostRoute(report: Report, posts: seq<Post>)
    ensures var p := ContentPreview(report, posts);
      p.link != "#" ==>
        p.link == App.Path(App.PostRoute(if report.kind == PostKind then report.contentId else report.postId))
  {
  }

  /** After the post is deleted (ids unique), its report previews as "Deleted Post". */
  lemma DeletedPostPreview(report: Report, posts: seq<Post>)
    requires report.kind == PostKind
    requires UniqueKeys(posts, PostId)
    ensures ContentPreview(report, RemoveFirst(posts, PostId, report.contentId)) == Preview("Deleted Post", "#")
  {
    RemoveFirstLeavesNone(posts, PostId, report.contentId);
  }

  /** The shared list after the comment branch: the first post with that id loses the comment. */
  function WithoutComment(posts: seq<Post>, postId: string, commentId: string): seq<Post> {
    var i := FirstIndex(posts, PostId, postId);
    if i == -1 then posts
    else posts[i := posts[i].(comments := RemoveAll(posts[i].comments, CommentId, commentId))]
  }

  /** `prevPosts.map(p => p.id === postId ? { ...p, comments } : p)` */
  function SetCommentsWhere(posts: seq<Post>, postId: string, comments: seq<Comment>): seq<Post> {
    seq(|posts|, j requires 0 <= j < |posts| =>
      if posts[j].id == postId then posts[j].(comments := comments) else posts[j])
  }

  /**
   * After the comment branch the report previews as "Deleted Comment", still
   * linking to its post, and no other post changed.
   */
  lemma DeletedCommentPreview(report: Report, posts: seq<Post>)
    requires report.kind == CommentKind
    requires Find(posts, PostId, report.postId).Some?
    ensures var after := WithoutComment(posts, report.postId, report.contentId);
      && ContentPreview(report, after) == Preview("Deleted Comment", PostLink(report.postId))
      && |after| == |posts|
      && forall j :: 0 <= j < |posts| && j != FirstIndex(posts, PostId, report.postId) ==> after[j] == posts[j]
  {
    var after := WithoutComment(posts, report.postId, report.contentId);
    FirstIndexSameKeys(posts, after, PostId, report.postId);
  }

  /** `if (page > totalPages && totalPages > 0) setPage(totalPages)` */
  function ClampPage(page: int, totalPages: nat): int {
    if page > totalPages && totalPages > 0 then totalPages else page
  }

  /**
   * The clamp brings a page past the end back to the last page, leaves a page
   * in range alone, and leaves the page as it was when nothing is left.
   */
  lemma ClampLaws(page: int, totalPages: nat)
    requires page >= 1
    ensures totalPages > 0 ==> 1 <= ClampPage(page, totalPages) <= totalPages
    ensures page <= totalPages ==> ClampPage(page, totalPages) == page
    ensures totalPages == 0 ==> ClampPage(page, totalPages) == page
  {
  }

  // ---- the page ----

  class Dashboard {
    var posts: seq<Post>
    var users: seq<User>
    var reports: seq<Report>
    var page: int
    const store: Store

    /** The page number is at least 1, and within the page count while posts remain. */
    ghost predicate Valid()
      reads this
    {
      && 1 <= page
      && (|posts| > 0 ==> page <= Pagination.TotalPages(|posts|, PostsPerPage))
    }

    constructor (store: Store)
      ensures Valid()
      ensures posts == store.posts && users == store.users && reports == store.reports
      ensures page == 1 && this.store == store
    {
      posts := store.posts;
      users := store.users;
      reports := store.reports;
      page := 1;
      this.store := store;
    }

    /** The rows of the posts table. */
    function VisiblePosts(): (rows: seq<Post>)
      reads this
      ensures page >= 1 ==> |rows| <= PostsPerPage
      ensures forall j :: 0 <= j < |rows| ==> rows[j] in posts
    {
      var rows := Pagination.PageSlice(posts, page, PostsPerPage);
      assert page >= 1 ==> |rows| <= PostsPerPage by {
        if page >= 1 {
          Pagination.PageContents(posts, page, PostsPerPage);
        }
      }
      rows
    }

    /**
     * While posts remain, the page the dashboard keeps in range always shows
     * between one and five of them, the stretch starting at `(page-1)*5`.
     */
    lemma VisibleRowsNeverEmpty()
      requires Valid()
      ensures VisiblePosts() == posts[Pagination.Min((page - 1) * PostsPerPage, |posts|) ..
                                      Pagination.Min(page * PostsPerPage, |posts|)]
      ensures |posts| > 0 ==> 1 <= |VisiblePosts()|
    {
      Pagination.PageContents(posts, page, PostsPerPage);
      if |posts| > 0 {
        var t := Pagination.TotalPages(|posts|, PostsPerPage);
        Pagination.MulMonotone(page - 1, t - 1, PostsPerPage);
      }
    }

    /** `onPageChange` from the selector under the posts table. */
    method Navigate(c: Pagination.Control)
      requires Valid()
      modifies this
      ensures Valid()
      ensures var next := Pagination.OnClick(old(page), Pagination.TotalPages(|posts|, PostsPerPage), c);
        page == (if next.Some? then next.value else old(page))
      ensures posts == old(posts) && users == old(users) && reports == old(reports)
    {
      var next := Pagination.OnClick(page, Pagination.TotalPages(|posts|, PostsPerPage), c);
      if next.Some? {
        Pagination.ClicksStayInRange(page, Pagination.TotalPages(|posts|, PostsPerPage), c);
        page := next.value;
      }
    }

    /** `deletePost`: filter the copy, splice the shared list, clamp the page. */
    method DeletePost(id: string)
      requires Valid()
      modifies this, store
      ensures Valid()
      ensures posts == RemoveAll(old(posts), PostId, id)
      ensures store.posts == RemoveFirst(old(store.posts), PostId, id)
      ensures page == ClampPage(old(page), Pagination.TotalPages(|posts|, PostsPerPage))
      ensures users == old(users) && reports == old(reports)
      ensures store.users == old(store.users) && store.reports == old(store.reports)
      ensures store.currentUser == old(store.currentUser)
    {
      var updated := RemoveAll(posts, PostId, id);
      posts := updated;
      store.posts := RemoveFirst(store.posts, PostId, id);
      var total := Pagination.TotalPages(|updated|, PostsPerPage);
      ClampLaws(page, total);
      if page > total && total > 0 {
        page := total;
      }
    }

    /** `deleteUser`: filter the copy, splice the shared list; posts and reports are kept. */
    method DeleteUser(id: string)
      modifies this, store
      ensures users == RemoveAll(old(users), UserId, id)
      ensures store.users == RemoveFirst(old(store.users), UserId, id)
      ensures posts == old(posts) && reports == old(reports) && page == old(page)
      ensures store.posts == old(store.posts) && store.reports == old(store.reports)
      ensures store.currentUser == old(store.currentUser)
    {
      users := RemoveAll(users, UserId, id);
      store.users := RemoveFirst(store.users, UserId, id);
    }

    /**
     * `toggleUserRole`: the new role comes from the page's copy; the copy is
     * mapped and the shared record's role is assigned.
     */
    method ToggleUserRole(id: string)
      modifies this, store
      ensures users == Toggled(old(users), id)
      ensures store.users == match Find(old(users), UserId, id)
        case None => old(store.users)
        case Some(u) => SetFirstRole(old(store.users), id, Flip(u.role))
      ensures posts == old(posts) && reports == old(reports) && page == old(page)
      ensures store.posts == old(store.posts) && store.reports == old(store.reports)
      ensures store.currentUser == old(store.currentUser)
    {
      var found := Find(users, UserId, id);
      if found.None? {
        return;
      }
      var newRole := Flip(found.value.role);
      users := SetRoleWhere(users, id, newRole);
      var i := FirstIndex(store.users, UserId, id);
      if i != -1 {
        store.users := store.users[i := store.users[i].(role := newRole)];
      }
    }

    /** `handleResolveReport` */
    method ResolveReport(id: string)
      modifies this, store
      ensures reports == ResolveAll(old(reports), id)
      ensures store.reports == ResolveFirst(old(store.reports), id)
      ensures posts == old(posts) && users == old(users) && page == old(page)
      ensures store.posts == old(store.posts) && store.users == old(store.users)
      ensures store.currentUser == old(store.currentUser)
    {
      reports := ResolveAll(reports, id);
      var i := FirstIndex(store.reports, ReportId, id);
      if i != -1 {
        store.reports := store.reports[i := store.reports[i].(status := Resolved)];
      }
    }

    /**
     * `handleDeleteContentAndResolve`: a post report deletes the post, a
     * comment report removes that comment from the first post with the
     * report's post id (the copy takes the shared post's remaining comments);
     * the report is resolved either way.
     */
    method DeleteContentAndResolve(report: Report)
      requires Valid()
      modifies this, store
      ensures Valid()
      ensures report.kind == PostKind ==>
        && posts == RemoveAll(old(posts), PostId, report.contentId)
        && store.posts == RemoveFirst(old(store.posts), PostId, report.contentId)
        && page == ClampPage(old(page), Pagination.TotalPages(|posts|, PostsPerPage))
      ensures report.kind == CommentKind ==>
        && store.posts == WithoutComment(old(store.posts), report.postId, report.contentId)
        && page == old(page)
        && var i := FirstIndex(old(store.posts), PostId, report.postId);
           posts == if i == -1 then old(posts)
                    else SetCommentsWhere(old(posts), report.postId, store.posts[i].comments)
      ensures reports == ResolveAll(old(reports), report.id)
      ensures store.reports == ResolveFirst(old(store.reports), report.id)
      ensures users == old(users) && store.users == old(store.users)
      ensures store.currentUser == old(store.currentUser)
    {
      if report.kind == PostKind {
        DeletePost(report.contentId);
      } else {
        var i := FirstIndex(store.posts, PostId, report.postId);
        if i > -1 {
          var updated := RemoveAll(store.posts[i].comments, CommentId, report.contentId);
          store.posts := store.posts[i := store.posts[i].(comments := updated)];
          posts := SetCommentsWhere(posts, report.postId, updated);
        }
      }
      ResolveReport(report.id);
    }
  }
}
