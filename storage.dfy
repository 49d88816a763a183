/**
 * The persistence mirror (services/storageService.ts) over the browser's
 * key-value store. JSON encoding is taken as the identity: an item holds the
 * value that was saved, or `Malformed` for text that does not parse.
 */
module Storage {
  import opened Types

  const UsersKey: string := "vlogify_users"
  const PostsKey: string := "vlogify_posts"
  const ReportsKey: string := "vlogify_reports"
  /** The session key written by the auth provider (context/AuthContext.tsx). */
  const SessionKey: string := "vlogify_user"

  datatype Stored =
    | UsersData(users: seq<User>)
    | PostsData(posts: seq<Post>)
    | ReportsData(reports: seq<Report>)
    | SessionData(user: User)
    | Malformed

  type Items = map<string, Stored>

  /** `getFromStorage`: the parsed item, or null when it is absent or does not parse. */
  function Read(items: Items, key: string): (r: Option<Stored>)
    ensures r.None? <==> key !in items || items[key].Malformed?
    ensures r.Some? ==> r.value == items[key]
  {
    if key in items && !items[key].Malformed? then Some(items[key]) else None
  }

  /** `getUsers()`: the stored users, or [] when there are none to read. */
  function UsersIn(items: Items): seq<User> {
    match Read(items, UsersKey)
    case Some(UsersData(us)) => us
    case _ => []
  }

  function PostsIn(items: Items): seq<Post> {
    match Read(items, PostsKey)
    case Some(PostsData(ps)) => ps
    case _ => []
  }

  function ReportsIn(items: Items): seq<Report> {
    match Read(items, ReportsKey)
    case Some(ReportsData(rs)) => rs
    case _ => []
  }

  /** Reading an absent or unparseable collection yields the empty one. */
  lemma ReadDefaultsToEmpty(items: Items)
    ensures Read(items, UsersKey).None? ==> UsersIn(items) == []
    ensures Read(items, PostsKey).None? ==> PostsIn(items) == []
    ensures Read(items, ReportsKey).None? ==> ReportsIn(items) == []
  {
  }

  /** Saving a collection and reading it back returns it, whatever was there before. */
  lemma SaveThenGet(items: Items, us: seq<User>, ps: seq<Post>, rs: seq<Report>)
    ensures UsersIn(items[UsersKey := UsersData(us)]) == us
    ensures PostsIn(items[PostsKey := PostsData(ps)]) == ps
    ensures ReportsIn(items[ReportsKey := ReportsData(rs)]) == rs
  {
  }

  /** One step of `initializeData`: write the seed only when the key reads as absent. */
  function SeedIfAbsent(items: Items, key: string, seed: Stored): (r: Items)
    requires !seed.Malformed?
    ensures Read(r, key).Some?
    ensures Read(items, key).Some? ==> r == items
    ensures Read(items, key).None? ==> r == items[key := seed]
  {
    if Read(items, key).None? then items[key := seed] else items
  }

  /** The store after `initializeData` when every write succeeds. */
  function Initialized(items: Items, users: seq<User>, posts: seq<Post>, reports: seq<Report>): Items {
    var a := SeedIfAbsent(items, UsersKey, UsersData(users));
    var b := SeedIfAbsent(a, PostsKey, PostsData(posts));
    SeedIfAbsent(b, ReportsKey, ReportsData(reports))
  }

  /**
   * Initialization seeds exactly the collections that read as absent, and
   * leaves present ones and every other key alone.
   */
  lemma InitializeSeedsOnlyAbsent(items: Items, users: seq<User>, posts: seq<Post>, reports: seq<Report>)
    ensures var r := Initialized(items, users, posts, reports);
      && r[UsersKey] == (if Read(items, UsersKey).None? then UsersData(users) else items[UsersKey])
      && r[PostsKey] == (if Read(items, PostsKey).None? then PostsData(posts) else items[PostsKey])
      && r[ReportsKey] == (if Read(items, ReportsKey).None? then ReportsData(reports) else items[ReportsKey])
      && forall k :: k != UsersKey && k != PostsKey && k != ReportsKey ==>
           (k in r <==> k in items) && (k in items ==> r[k] == items[k])
  {
  }

  /** A second initialization, with any seeds, changes nothing. */
  lemma InitializeIdempotent(items: Items, users: seq<User>, posts: seq<Post>, reports: seq<Report>,
                             users': seq<User>, posts': seq<Post>, reports': seq<Report>)
    ensures var once := Initialized(items, users, posts, reports);
      Initialized(once, users', posts', reports') == once
  {
    var a := SeedIfAbsent(items, UsersKey, UsersData(users));
    var b := SeedIfAbsent(a, PostsKey, PostsData(posts));
    var once := SeedIfAbsent(b, ReportsKey, ReportsData(reports));
    assert Read(once, UsersKey).Some?;
    assert Read(once, PostsKey).Some?;
  }

  /**
   * The browser store. `writable` is false when `setItem` throws (storage
   * full or disabled); the service swallows that error.
   */
  class LocalStorage {
    var items: Items
    var writable: bool

    constructor (items: Items, writable: bool)
      ensures this.items == items && this.writable == writable
    {
      this.items := items;
      this.writable := writable;
    }

    function GetUsers(): seq<User>
      reads this
    {
      UsersIn(items)
    }

    function GetPosts(): seq<Post>
      reads this
    {
      PostsIn(items)
    }

    function GetReports(): seq<Report>
      reads this
    {
      ReportsIn(items)
    }

    /** A bare `setItem`, as the auth provider issues it (outside any try block). */
    method SetItem(key: string, value: Stored)
      modifies this`items
      ensures items == old(items)[key := value]
    {
      items := items[key := value];
    }

    method RemoveItem(key: string)
      modifies this`items
      ensures items == old(items) - {key}
    {
      items := items - {key};
    }

    /** `saveToStorage`: replace the whole item, or nothing when the write fails. */
    method SaveToStorage(key: string, value: Stored)
      modifies this`items
      ensures items == if writable then old(items)[key := value] else old(items)
    {
      if writable {
        items := items[key := value];
      }
    }

    method SaveUsers(users: seq<User>)
      modifies this`items
      ensures writable ==> GetUsers() == users
      ensures items == if writable then old(items)[UsersKey := UsersData(users)] else old(items)
    {
      SaveToStorage(UsersKey, UsersData(users));
    }

    method SavePosts(posts: seq<Post>)
      modifies this`items
      ensures writable ==> GetPosts() == posts
      ensures items == if writable then old(items)[PostsKey := PostsData(posts)] else old(items)
    {
      SaveToStorage(PostsKey, PostsData(posts));
    }

    method SaveReports(reports: seq<Report>)
      modifies this`items
      ensures writable ==> GetReports() == reports
      ensures items == if writable then old(items)[ReportsKey := ReportsData(reports)] else old(items)
    {
      SaveToStorage(ReportsKey, ReportsData(reports));
    }

    /** `initializeData`: three guarded writes of the in-memory seed collections. */
    method InitializeData(users: seq<User>, posts: seq<Post>, reports: seq<Report>)
      modifies this`items
      ensures items == if writable then Initialized(old(items), users, posts, reports) else old(items)
    {
      if Read(items, UsersKey).None? {
        SaveToStorage(UsersKey, UsersData(users));
      }
      if Read(items, PostsKey).None? {
        SaveToStorage(PostsKey, PostsData(posts));
      }
      if Read(items, ReportsKey).None? {
        SaveToStorage(ReportsKey, ReportsData(reports));
      }
    }
  }
}
