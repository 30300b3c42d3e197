/**
 * The client's session slice. `loading` is not part of the initial state: the `fetchUser`
 * reducers create it, so it is `None` until the first of them runs. No reducer handles
 * `loginUser.pending` or `registerUser.pending`, so `loginLoading` is only ever set to false,
 * and none writes `fetchUserLoading`.
 */
module AuthSlice {
  import opened Wrappers
  import opened UserModel

  class AuthState {
    var user: Option<PublicUser>
    var loading: Option<bool>
    var loginLoading: bool
    var fetchUserLoading: bool
    var updateProfileLoading: bool
    var error: Option<string>

    constructor ()
      ensures user == None && loading == None && error == None
      ensures !loginLoading && !fetchUserLoading && !updateProfileLoading
    {
      user := None;
      loading := None;
      loginLoading := false;
      fetchUserLoading := false;
      updateProfileLoading := false;
      error := None;
    }

    /** `fetchUser.pending`: sets `loading`, not `fetchUserLoading`. */
    method FetchUserPending()
      modifies this
      ensures loading == Some(true) && user == old(user) && error == old(error)
      ensures loginLoading == old(loginLoading) && fetchUserLoading == old(fetchUserLoading)
      ensures updateProfileLoading == old(updateProfileLoading)
    {
      loading := Some(true);
    }

    /** `fetchUser.fulfilled`: the session user is whatever `/auth/me` answered. */
    method FetchUserFulfilled(payload: PublicUser)
      modifies this
      ensures loading == Some(false) && user == Some(payload) && error == old(error)
      ensures loginLoading == old(loginLoading) && fetchUserLoading == old(fetchUserLoading)
      ensures updateProfileLoading == old(updateProfileLoading)
    {
      loading := Some(false);
      user := Some(payload);
    }

    /** `fetchUser.rejected`: the session is dropped and no error is recorded. */
    method FetchUserRejected()
      modifies this
      ensures loading == Some(false) && user == None && error == old(error)
      ensures loginLoading == old(loginLoading) && fetchUserLoading == old(fetchUserLoading)
      ensures updateProfileLoading == old(updateProfileLoading)
    {
      loading := Some(false);
      user := None;
    }

    /** `loginUser.fulfilled` and `registerUser.fulfilled` alike: the answered user becomes the session. */
    method SignInFulfilled(payload: PublicUser)
      modifies this
      ensures user == Some(payload) && loading == old(loading) && error == old(error)
      ensures loginLoading == old(loginLoading) && fetchUserLoading == old(fetchUserLoading)
      ensures updateProfileLoading == old(updateProfileLoading)
    {
      user := Some(payload);
    }

    /** `loginUser.rejected` and `registerUser.rejected` alike: the session user is kept. */
    method SignInRejected(message: string)
      modifies this
      ensures !loginLoading && error == Some(message) && user == old(user) && loading == old(loading)
      ensures fetchUserLoading == old(fetchUserLoading) && updateProfileLoading == old(updateProfileLoading)
    {
      loginLoading := false;
      error := Some(message);
    }

    /** `logoutUser.fulfilled`. */
    method LogoutFulfilled()
      modifies this
      ensures user == None && loading == old(loading) && error == old(error)
      ensures loginLoading == old(loginLoading) && fetchUserLoading == old(fetchUserLoading)
      ensures updateProfileLoading == old(updateProfileLoading)
    {
      user := None;
    }

    /** `updateProfile.pending`. */
    method UpdateProfilePending()
      modifies this
      ensures updateProfileLoading && user == old(user) && loading == old(loading) && error == old(error)
      ensures loginLoading == old(loginLoading) && fetchUserLoading == old(fetchUserLoading)
    {
      updateProfileLoading := true;
    }

    /** `updateProfile.fulfilled`: the saved profile becomes the session user. */
    method UpdateProfileFulfilled(payload: PublicUser)
      modifies this
      ensures !updateProfileLoading && user == Some(payload) && loading == old(loading) && error == old(error)
      ensures loginLoading == old(loginLoading) && fetchUserLoading == old(fetchUserLoading)
    {
      updateProfileLoading := false;
      user := Some(payload);
    }

    /** `updateProfile.rejected`: the session user is kept. */
    method UpdateProfileRejected(message: string)
      modifies this
      ensures !updateProfileLoading && error == Some(message) && user == old(user) && loading == old(loading)
      ensures loginLoading == old(loginLoading) && fetchUserLoading == old(fetchUserLoading)
    {
      updateProfileLoading := false;
      error := Some(message);
    }
  }
}
