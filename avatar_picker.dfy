/** The avatar picker (app/selecionar-avatar.tsx). */
module AvatarPicker {
  import opened Outcomes
  import opened Session

  const DefaultAvatar: string := "default.png"

  /** The names the grid offers, in display order. */
  const Avatars: seq<string> := [
    DefaultAvatar, "avatar1.png", "avatar2.png", "avatar3.png", "avatar4.png",
    "avatar5.png", "avatar6.png", "avatar7.png", "avatar8.png"
  ]

  /** The grid offers nine different names, the default first. */
  lemma AvatarsAreDistinct()
    ensures |Avatars| == 9 && Avatars[0] == DefaultAvatar
    ensures forall i, j :: 0 <= i < j < |Avatars| ==> Avatars[i] != Avatars[j]
  {
  }

  /** `user?.avatar_id || 'default.png'`: the user's avatar when it is
      present and non-empty, the default otherwise. */
  function InitialSelection(user: Option<User>): (s: string)
    ensures s == DefaultAvatar || (user.Some? && user.value.avatarId == Some(s))
    ensures user.Some? && user.value.avatarId.Some? && user.value.avatarId.value != "" ==>
      s == user.value.avatarId.value
    ensures !(user.Some? && user.value.avatarId.Some? && user.value.avatarId.value != "") ==>
      s == DefaultAvatar
  {
    if user.Some? && user.value.avatarId.Some? && user.value.avatarId.value != "" then
      user.value.avatarId.value
    else
      DefaultAvatar
  }

  /** `selectedAvatar === user?.avatar_id`: an absent user or avatar is
      `undefined`, which equals no name. */
  predicate IsCurrent(selected: string, user: Option<User>)
    ensures IsCurrent(selected, user) ==> user.Some? && user.value.avatarId.Some? && selected == user.value.avatarId.value
    ensures user.None? || user.value.avatarId.None? ==> !IsCurrent(selected, user)
  {
    user.Some? && user.value.avatarId == Some(selected)
  }

  /** Saving the initial selection skips the request exactly when the user
      has a non-empty avatar; without one (absent or empty) the default is
      sent. */
  lemma InitialSelectionIsCurrentIff(user: Option<User>)
    ensures IsCurrent(InitialSelection(user), user) <==>
      user.Some? && user.value.avatarId.Some? && user.value.avatarId.value != ""
    ensures !IsCurrent(InitialSelection(user), user) ==> InitialSelection(user) == DefaultAvatar
  {
  }

  datatype Notice = AvatarSaved | CouldNotSave

  class AvatarScreen {
    var user: Option<User>
    var selectedAvatar: string
    var loading: bool

    constructor (user: Option<User>)
      ensures this.user == user && selectedAvatar == InitialSelection(user) && !loading
    {
      this.user := user;
      selectedAvatar := InitialSelection(user);
      loading := false;
    }

    /** Tapping the tile at `index` of the grid selects that name. */
    method Tap(index: nat)
      requires index < |Avatars|
      modifies this`selectedAvatar
      ensures selectedAvatar == Avatars[index] && selectedAvatar in Avatars
    {
      selectedAvatar := Avatars[index];
    }

    /** `handleSave`, with `response` the settled `PUT /users/me` (its
        `usuario`). Re-saving the current avatar only goes back. Otherwise
        the selection is sent; a success replaces the user and goes back, a
        failure stays; the flag ends false. */
    method Save(response: Outcome<User>) returns (request: Option<string>, wentBack: bool, notice: Option<Notice>)
      requires !loading
      modifies this`user, this`loading
      ensures request == (if IsCurrent(selectedAvatar, old(user)) then None else Some(selectedAvatar))
      ensures request.None? ==> wentBack && notice == None && user == old(user)
      ensures request.Some? && response.Ok? ==>
        wentBack && notice == Some(AvatarSaved) && user == Some(response.value)
      ensures request.Some? && response.Err? ==>
        !wentBack && notice == Some(CouldNotSave) && user == old(user)
      ensures !loading
    {
      if IsCurrent(selectedAvatar, user) {
        return None, true, None;
      }
      loading := true;
      request := Some(selectedAvatar);
      if response.Ok? {
        user := Some(response.value);
        wentBack, notice := true, Some(AvatarSaved);
      } else {
        wentBack, notice := false, Some(CouldNotSave);
      }
      loading := false;
    }
  }
}
