/**
 * The domain records of the application: users, comments, posts and
 * moderation reports (types.ts). The string unions of the source become
 * enumerations; each has its wire spelling and a parser that inverts it,
 * since the persisted JSON carries the strings.
 */
module Types {

  datatype Option<+T> = None | Some(value: T)

  /** Milliseconds since the epoch; the source keeps ISO-8601 strings. */
  type Timestamp = int

  /** `role: 'user' | 'admin'` */
  datatype Role = UserRole | AdminRole

  /** `type: 'post' | 'comment'` of a report */
  datatype ContentKind = PostKind | CommentKind

  /** `status: 'pending' | 'resolved'` of a report */
  datatype Status = Pending | Resolved

  datatype User = User(
    id: string,
    name: string,
    email: string,
    profilePicture: string,
    role: Role)

  /** A comment embeds a copy of its author's record. */
  datatype Comment = Comment(
    id: string,
    text: string,
    author: User,
    createdAt: Timestamp)

  /** `likes` holds user ids; `comments` is kept in insertion order. */
  datatype Post = Post(
    id: string,
    title: string,
    description: string,
    image: string,
    author: User,
    likes: seq<string>,
    comments: seq<Comment>,
    createdAt: Timestamp)

  /** `postId` links back to the post even when the report is about a comment. */
  datatype Report = Report(
    id: string,
    kind: ContentKind,
    contentId: string,
    postId: string,
    reporter: User,
    reason: string,
    createdAt: Timestamp,
    status: Status)

  // Key projections, passed to the generic lookups of SeqUtil.
  function UserId(u: User): string { u.id }
  function PostId(p: Post): string { p.id }
  function CommentId(c: Comment): string { c.id }
  function ReportId(r: Report): string { r.id }
  function UserEmail(u: User): string { u.email }

  function RoleName(r: Role): string {
    match r
    case UserRole => "user"
    case AdminRole => "admin"
  }

  /** Reads a role back from its wire spelling; only the two literals are roles. */
  function ParseRole(s: string): (r: Option<Role>)
    ensures r.Some? <==> s == "user" || s == "admin"
    ensures r.Some? ==> RoleName(r.value) == s
  {
    if s == "user" then Some(UserRole)
    else if s == "admin" then Some(AdminRole)
    else None
  }

  function KindName(k: ContentKind): string {
    match k
    case PostKind => "post"
    case CommentKind => "comment"
  }

  function ParseKind(s: string): (r: Option<ContentKind>)
    ensures r.Some? <==> s == "post" || s == "comment"
    ensures r.Some? ==> KindName(r.value) == s
  {
    if s == "post" then Some(PostKind)
    else if s == "comment" then Some(CommentKind)
    else None
  }

  function StatusName(st: Status): string {
    match st
    case Pending => "pending"
    case Resolved => "resolved"
  }

  function ParseStatus(s: string): (r: Option<Status>)
    ensures r.Some? <==> s == "pending" || s == "resolved"
    ensures r.Some? ==> StatusName(r.value) == s
  {
    if s == "pending" then Some(Pending)
    else if s == "resolved" then Some(Resolved)
    else None
  }

  /** Each enumeration survives a trip through its wire spelling. */
  lemma WireNamesRoundTrip(r: Role, k: ContentKind, st: Status)
    ensures ParseRole(RoleName(r)) == Some(r)
    ensures ParseKind(KindName(k)) == Some(k)
    ensures ParseStatus(StatusName(st)) == Some(st)
  {
  }
}
