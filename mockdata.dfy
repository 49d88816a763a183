/**
 * The seed data set (data/mockData.ts). The source stamps seed dates
 * relative to the moment the module loads, so the posts and comments are
 * functions of that moment `now` (milliseconds).
 */
module MockData {
  import opened Types

  const Hour: int := 60 * 60 * 1000
  const Day: int := 24 * Hour

  const MockUsers: seq<User> := [
    User("user_1", "TPG Coder", "admin@tpgcoder.com", "https://picsum.photos/seed/admin/200", AdminRole),
    User("user_2", "Jane Doe", "jane@example.com", "https://picsum.photos/seed/jane/200", UserRole),
    User("user_3", "John Smith", "john@example.com", "https://picsum.photos/seed/john/200", UserRole),
    User("user_4", "Demo Admin", "demo@admin.com", "https://picsum.photos/seed/demo_admin/200", AdminRole)
  ]

  function MockComments(now: Timestamp): seq<Comment> {
    [ Comment("comment_1", "This is an amazing post!", MockUsers[2], now - 2 * Hour),
      Comment("comment_2", "Great insights, thank you for sharing.", MockUsers[1], now - Hour) ]
  }

  const AlpsText := "A detailed story about my recent trip to the Swiss Alps. The views were breathtaking and the experience was unforgettable. Here are some of the highlights and tips for anyone planning a similar trip. I cover everything from packing essentials to the best hiking trails we discovered. The local cuisine was also a major highlight, with fondue and raclette being my absolute favorites. I hope this inspires you to take your own adventure!"
  const MinimalismText := "Exploring the philosophy of minimalism and how it can declutter not just your space, but your mind. This post delves into the practical steps I took to adopt a minimalist lifestyle, from downsizing my wardrobe to curating my digital life. It has been a transformative experience that brought more clarity and purpose into my daily routine. I also share some resources that helped me along the way."
  const TokyoText := "From street food to Michelin-starred restaurants, Tokyo is a food lover's paradise. Join me as I recount my week-long culinary journey through this vibrant city. I tried everything from fresh sushi at the Tsukiji fish market to savory ramen in Shinjuku. This guide includes my top restaurant picks, must-try dishes, and tips for navigating the bustling food scene of Tokyo. Get ready for a delicious ride!"

  function MockPosts(now: Timestamp): seq<Post> {
    [ Post("post_1", "My Journey into the Alps", AlpsText,
           "https://picsum.photos/seed/alps/800/600", MockUsers[1],
           ["user_3"], MockComments(now), now - Day),
      Post("post_2", "The Art of Minimalist Living", MinimalismText,
           "https://picsum.photos/seed/minimalism/800/600", MockUsers[2],
           ["user_1", "user_2"], [], now - 2 * Day),
      Post("post_3", "A Culinary Adventure in Tokyo", TokyoText,
           "https://picsum.photos/seed/tokyo/800/600", MockUsers[1],
           [], [], now - 5 * Day) ]
  }

  const MockReports: seq<Report> := []

  ghost predicate IsSeededUserId(id: string) {
    exists u :: u in MockUsers && u.id == id
  }

  /** The four seed users have pairwise distinct ids and pairwise distinct emails. */
  lemma SeedUsersDistinct()
    ensures |MockUsers| == 4
    ensures forall i, j :: 0 <= i < j < |MockUsers| ==> MockUsers[i].id != MockUsers[j].id
    ensures forall i, j :: 0 <= i < j < |MockUsers| ==> MockUsers[i].email != MockUsers[j].email
  {
  }

  /** Exactly user_1 and user_4 are seeded as administrators. */
  lemma SeedAdmins()
    ensures forall u :: u in MockUsers ==> (u.role == AdminRole <==> u.id == "user_1" || u.id == "user_4")
  {
  }

  /** Every seeded like names a seeded user, and no post lists a user twice. */
  lemma SeedLikes(now: Timestamp)
    ensures forall p, id :: p in MockPosts(now) && id in p.likes ==> IsSeededUserId(id)
    ensures forall p, i, j :: p in MockPosts(now) && 0 <= i < j < |p.likes| ==> p.likes[i] != p.likes[j]
  {
    assert MockUsers[0].id == "user_1" && MockUsers[1].id == "user_2" && MockUsers[2].id == "user_3";
  }

  /** Seed comments belong to post_1 only, and are written by seeded users. */
  lemma SeedComments(now: Timestamp)
    ensures forall p :: p in MockPosts(now) && |p.comments| > 0 ==> p.id == "post_1"
    ensures forall p, c :: p in MockPosts(now) && c in p.comments ==> c.author in MockUsers
  {
  }

  /** The seed posts are listed newest first, strictly. */
  lemma SeedPostsNewestFirst(now: Timestamp)
    ensures forall i, j :: 0 <= i < j < |MockPosts(now)| ==> MockPosts(now)[i].createdAt > MockPosts(now)[j].createdAt
  {
  }

  /** All seeded posts are authored by seeded users, and the reports start empty. */
  lemma SeedAuthorsAndReports(now: Timestamp)
    ensures forall p :: p in MockPosts(now) ==> p.author in MockUsers
    ensures |MockReports| == 0
  {
  }
}
