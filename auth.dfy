/**
 * The auth provider: follows the auth service's notifications of the signed-in
 * user and, for a signed-in user, fetches that user's profile document.
 * The application below it is rendered only once loading has finished.
 */
module Auth {
  import opened Options
  import opened Firebase

  const ProfileError := "Failed to load user profile"

  class Provider {
    var currentUser: Option<User>
    var userProfile: Option<Record>
    var loading: bool
    var error: Option<string>
    var isAuthenticated: bool
    const store: Store

    /** What every notification keeps: the authenticated flag mirrors the user,
        a signed-out state has no profile, and a loaded profile has no error. */
    ghost predicate Valid()
      reads this
    {
      && isAuthenticated == currentUser.Some?
      && (currentUser.None? ==> userProfile.None?)
      && (userProfile.Some? ==> error.None?)
    }

    /** The children are rendered exactly when loading has finished. */
    predicate RendersChildren()
      reads this
    {
      !loading
    }

    /** No user, no profile, no error, loading, not authenticated. */
    constructor (store: Store)
      ensures Valid()
      ensures this.store == store
      ensures currentUser == None && userProfile == None && error == None
      ensures loading && !isAuthenticated && !RendersChildren()
    {
      this.store := store;
      currentUser := None;
      userProfile := None;
      loading := true;
      error := None;
      isAuthenticated := false;
    }

    /** The listener: `user` is the notified user, `fetchFails` the store's
        answer to the profile read made for a signed-in user. */
    method OnAuthStateChanged(user: Option<User>, fetchFails: bool)
      requires Valid()
      modifies this
      modifies store
      ensures Valid()
      ensures currentUser == user && isAuthenticated == user.Some?
      ensures !loading && RendersChildren()
      // signed out: profile cleared, nothing fetched, error kept
      ensures user.None? ==>
        && userProfile == None && error == old(error)
        && store.log == old(store.log) && store.docs == old(store.docs)
      ensures user.Some? ==>
        store.log == old(store.log) + [GetCall(user.value.uid)] && store.docs == old(store.docs)
      // signed in, fetch succeeded: the document (or none), error cleared
      ensures user.Some? && !fetchFails ==>
        && error == None
        && userProfile == (if user.value.uid in old(store.docs) then Some(old(store.docs)[user.value.uid]) else None)
      // signed in, fetch failed: no profile, error set
      ensures user.Some? && fetchFails ==>
        userProfile == None && error == Some(ProfileError)
    {
      currentUser := user;
      isAuthenticated := user.Some?;
      if user.Some? {
        var profile := store.Get(user.value.uid, fetchFails);
        if profile.Ok? {
          userProfile := profile.value;
          error := None;
        } else {
          error := Some(ProfileError);
          userProfile := None;
        }
      } else {
        userProfile := None;
      }
      loading := false;
    }
  }
}
