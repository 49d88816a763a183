/**
 * The auth session (context/AuthContext.tsx): a state machine between
 * Anonymous (`currentUser == None`) and Authenticated over the shared users
 * list, mirrored to the browser store under the session key.
 */
module AuthContext {
  import opened Types
  import opened SeqUtil
  import opened Storage
  import opened AppStore

  /** `Partial<User>`: each field present or absent. */
  datatype UserPatch = UserPatch(
    id: Option<string>,
    name: Option<string>,
    email: Option<string>,
    profilePicture: Option<string>,
    role: Option<Role>)

  const NoChange := UserPatch(None, None, None, None, None)

  function Pick<T>(patched: Option<T>, current: T): T {
    if patched.Some? then patched.value else current
  }

  /** `{ ...user, ...updatedData }` */
  function Merge(u: User, patch: UserPatch): User {
    User(Pick(patch.id, u.id), Pick(patch.name, u.name), Pick(patch.email, u.email),
         Pick(patch.profilePicture, u.profilePicture), Pick(patch.role, u.role))
  }

  /** Merging keeps every field the patch leaves out, takes every field it carries, and is idempotent. */
  lemma MergeLaws(u: User, patch: UserPatch)
    ensures Merge(u, NoChange) == u
    ensures patch.email.None? ==> Merge(u, patch).email == u.email
    ensures patch.id.None? ==> Merge(u, patch).id == u.id
    ensures patch.role.None? ==> Merge(u, patch).role == u.role
    ensures patch.name.Some? ==> Merge(u, patch).name == patch.name.value
    ensures Merge(Merge(u, patch), patch) == Merge(u, patch)
  {
  }

  /** The placeholder avatar keyed by the user's name. */
  function AvatarFor(name: string): string {
    "https://picsum.photos/seed/" + name + "/200"
  }

  /** The record `register` creates; `stamp` is the decimal text of `Date.now()`. */
  function NewUser(name: string, email: string, stamp: string): User {
    User("user_" + stamp, name, email, AvatarFor(name), UserRole)
  }

  ghost predicate EmailsDistinct(users: seq<User>) {
    forall i, j :: 0 <= i < j < |users| ==> users[i].email != users[j].email
  }

  /** A registration that passed the duplicate check keeps emails unique. */
  lemma RegisterKeepsEmailsDistinct(users: seq<User>, u: User)
    requires EmailsDistinct(users)
    requires Find(users, UserEmail, u.email).None?
    ensures EmailsDistinct(users + [u])
  {
    forall i, j | 0 <= i < j < |users + [u]|
      ensures (users + [u])[i].email != (users + [u])[j].email
    {
      if j == |users| {
        assert UserEmail(users[i]) != u.email;
      }
    }
  }

  /** After a successful registration, logging in with that email finds the new user. */
  lemma {:induction false} RegisterThenLogin(users: seq<User>, u: User)
    requires Find(users, UserEmail, u.email).None?
    ensures Find(users + [u], UserEmail, u.email) == Some(u)
  {
    var i := FirstIndex(users + [u], UserEmail, u.email);
    assert UserEmail((users + [u])[|users|]) == u.email;
    assert i != -1;
  }

  /** `useEffect` on mount: adopt the stored session user, if one parses. */
  method RestoreSession(s: Store)
    modifies s
    ensures s.currentUser == match Read(s.storage.items, SessionKey)
      case Some(SessionData(u)) => Some(u)
      case _ => old(s.currentUser)
    ensures s.users == old(s.users) && s.posts == old(s.posts) && s.reports == old(s.reports)
    ensures s.storage.writable == old(s.storage.writable)
  {
    var stored := Read(s.storage.items, SessionKey);
    if stored.Some? && stored.value.SessionData? {
      s.currentUser := Some(stored.value.user);
    }
  }

  /** `login`: exact email match; the password is never looked at. */
  method Login(s: Store, email: string, password: string) returns (ok: bool)
    modifies s, s.storage
    ensures ok <==> Find(old(s.users), UserEmail, email).Some?
    ensures ok ==> (s.currentUser == Find(old(s.users), UserEmail, email)
                    && s.storage.items == old(s.storage.items)[SessionKey := SessionData(s.currentUser.value)])
    ensures !ok ==> s.currentUser == old(s.currentUser) && s.storage.items == old(s.storage.items)
    ensures s.users == old(s.users) && s.posts == old(s.posts) && s.reports == old(s.reports)
    ensures s.storage.writable == old(s.storage.writable)
  {
    var found := Find(s.users, UserEmail, email);
    if found.Some? {
      s.currentUser := found;
      s.storage.SetItem(SessionKey, SessionData(found.value));
      return true;
    }
    return false;
  }

  /** `logout`: unconditionally Anonymous, stored session removed. */
  method Logout(s: Store)
    modifies s, s.storage
    ensures s.currentUser == None
    ensures s.storage.items == old(s.storage.items) - {SessionKey}
    ensures s.users == old(s.users) && s.posts == old(s.posts) && s.reports == old(s.reports)
    ensures s.storage.writable == old(s.storage.writable)
  {
    s.currentUser := None;
    s.storage.RemoveItem(SessionKey);
  }

  /** `register`: refuse a taken email, otherwise append a plain user and log it in. */
  method Register(s: Store, name: string, email: string, password: string, stamp: string)
    returns (r: Option<User>)
    modifies s, s.storage
    ensures Find(old(s.users), UserEmail, email).Some? ==>
              && r == None && s.users == old(s.users) && s.currentUser == old(s.currentUser)
              && s.storage.items == old(s.storage.items)
    ensures Find(old(s.users), UserEmail, email).None? ==>
              && r == Some(NewUser(name, email, stamp))
              && s.users == old(s.users) + [r.value]
              && s.currentUser == r
              && s.storage.items == old(s.storage.items)[SessionKey := SessionData(r.value)]
    ensures s.posts == old(s.posts) && s.reports == old(s.reports)
    ensures s.storage.writable == old(s.storage.writable)
  {
    var existing := Find(s.users, UserEmail, email);
    if existing.Some? {
      return None;
    }
    var u := NewUser(name, email, stamp);
    s.users := s.users + [u];
    s.currentUser := Some(u);
    s.storage.SetItem(SessionKey, SessionData(u));
    return Some(u);
  }

  /**
   * `updateUser`: merge into the session user, store it, and overwrite the
   * first list entry that has the old user's id.
   */
  method UpdateUser(s: Store, patch: UserPatch)
    modifies s, s.storage
    ensures old(s.currentUser).None? ==>
              s.currentUser == None && s.users == old(s.users) && s.storage.items == old(s.storage.items)
    ensures old(s.currentUser).Some? ==>
              var updated := Merge(old(s.currentUser).value, patch);
              var i := FirstIndex(old(s.users), UserId, old(s.currentUser).value.id);
              && s.currentUser == Some(updated)
              && s.storage.items == old(s.storage.items)[SessionKey := SessionData(updated)]
              && s.users == (if i == -1 then old(s.users) else old(s.users)[i := updated])
    ensures s.posts == old(s.posts) && s.reports == old(s.reports)
    ensures s.storage.writable == old(s.storage.writable)
  {
    if s.currentUser.None? {
      return;
    }
    var current := s.currentUser.value;
    var updated := Merge(current, patch);
    s.currentUser := Some(updated);
    s.storage.SetItem(SessionKey, SessionData(updated));
    var i := FirstIndex(s.users, UserId, current.id);
    if i != -1 {
      s.users := s.users[i := updated];
    }
  }
}
