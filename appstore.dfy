/**
 * The application's shared mutable state: the module-level arrays
 * `MOCK_USERS`, `MOCK_POSTS` and `MOCK_REPORTS` of data/mockData.ts, which
 * every page reads and mutates in place, the session user held by the auth
 * provider (context/AuthContext.tsx), and the browser store.
 */
module AppStore {
  import opened Types
  import MockData
  import opened Storage

  class Store {
    var users: seq<User>
    var posts: seq<Post>
    var reports: seq<Report>
    var currentUser: Option<User>
    const storage: LocalStorage

    /** The state at page load: the seed data set, nobody logged in. */
    constructor (now: Timestamp, storage: LocalStorage)
      ensures users == MockData.MockUsers && posts == MockData.MockPosts(now)
      ensures reports == MockData.MockReports && currentUser == None
      ensures this.storage == storage
    {
      users := MockData.MockUsers;
      posts := MockData.MockPosts(now);
      reports := MockData.MockReports;
      currentUser := None;
      this.storage := storage;
    }
  }
}
