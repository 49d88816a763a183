/**
 * The profile editor (pages/EditProfile.tsx): builds the partial update it
 * hands to the auth provider's `updateUser`. The update always carries the
 * name, carries the picture only for a newly chosen file, and never carries
 * the email, the id or the role.
 */
module EditProfile {
  import opened Types
  import opened SeqUtil
  import opened AppStore
  import opened Storage
  import opened AuthContext

  const SuccessMessage: string := "Profile updated successfully!"

  /** `{ name }`, plus `profilePicture` when a new file was chosen and its preview is non-empty. */
  function ProfilePatch(name: string, hasNewFile: bool, picture: Option<string>): (p: UserPatch)
    ensures p.name == Some(name)
    ensures p.email.None? && p.id.None? && p.role.None?
    ensures p.profilePicture.Some? <==> hasNewFile && picture.Some? && picture.value != ""
    ensures p.profilePicture.Some? ==> p.profilePicture == picture
  {
    UserPatch(None, Some(name), None,
              if hasNewFile && picture.Some? && picture.value != "" then picture else None,
              None)
  }

  /**
   * Saving the profile keeps the user's id, email and role, sets the name,
   * and keeps the old picture unless a new file was chosen.
   */
  lemma SavedProfile(u: User, name: string, hasNewFile: bool, picture: Option<string>)
    ensures var v := Merge(u, ProfilePatch(name, hasNewFile, picture));
      && v.id == u.id && v.email == u.email && v.role == u.role && v.name == name
      && (!hasNewFile ==> v.profilePicture == u.profilePicture)
      && (hasNewFile && picture.Some? && picture.value != "" ==> v.profilePicture == picture.value)
  {
  }

  class Page {
    const store: Store
    var name: string
    var picture: Option<string>
    var hasNewFile: bool
    var isLoading: bool
    var error: string
    var success: string

    constructor (store: Store)
      ensures this.store == store && name == "" && picture == None && !hasNewFile
      ensures !isLoading && error == "" && success == ""
    {
      this.store := store;
      name := "";
      picture := None;
      hasNewFile := false;
      isLoading := false;
      error := "";
      success := "";
    }

    /** The effect that fills the form from the session user (the redirect when there is none is not modelled). */
    method Init()
      modifies this
      ensures store.currentUser.Some? ==>
        name == store.currentUser.value.name && picture == Some(store.currentUser.value.profilePicture)
      ensures store.currentUser.None? ==> name == old(name) && picture == old(picture)
      ensures hasNewFile == old(hasNewFile)
    {
      if store.currentUser.Some? {
        name := store.currentUser.value.name;
        picture := Some(store.currentUser.value.profilePicture);
      }
    }

    method SetName(text: string)
      modifies this
      ensures name == text && picture == old(picture) && hasNewFile == old(hasNewFile)
    {
      name := text;
    }

    /** `handleFileChange`: a chosen file is remembered and its data URL becomes the preview. */
    method FileChange(dataUrl: Option<string>)
      modifies this
      ensures dataUrl.Some? ==> hasNewFile && picture == dataUrl
      ensures dataUrl.None? ==> hasNewFile == old(hasNewFile) && picture == old(picture)
      ensures name == old(name)
    {
      if dataUrl.Some? {
        hasNewFile := true;
        picture := dataUrl;
      }
    }

    /** `handleSubmit`: nothing without a user; otherwise the patch goes to `updateUser`. */
    method Submit()
      modifies this, store, store.storage
      ensures old(store.currentUser).None? ==>
        && store.currentUser == None && store.users == old(store.users)
        && store.storage.items == old(store.storage.items) && success == old(success)
      ensures old(store.currentUser).Some? ==>
        var updated := Merge(old(store.currentUser).value, ProfilePatch(old(name), old(hasNewFile), old(picture)));
        var i := FirstIndex(old(store.users), UserId, old(store.currentUser).value.id);
        && store.currentUser == Some(updated)
        && store.users == (if i == -1 then old(store.users) else old(store.users)[i := updated])
        && store.storage.items == old(store.storage.items)[SessionKey := SessionData(updated)]
        && success == SuccessMessage && error == "" && !isLoading
      ensures store.posts == old(store.posts) && store.reports == old(store.reports)
      ensures store.storage.writable == old(store.storage.writable)
      ensures name == old(name) && picture == old(picture)
    {
      if store.currentUser.None? {
        return;
      }
      isLoading := true;
      error := "";
      success := "";
      var patch := ProfilePatch(name, hasNewFile, picture);
      UpdateUser(store, patch);
      success := SuccessMessage;
      isLoading := false;
    }
  }
}
