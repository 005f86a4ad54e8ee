/** The admin user list (client/src/views/admin/user.jsx): the local copy of the users, updated after
    a successful disable or enable, and the row menu that is open. */
module AdminUsers {
  import opened Js
  import opened AuthModel
  import opened UserController

  /** A fetched user with its `_id`. */
  datatype ListedUser = ListedUser(id: UserId, user: User)

  /** `prevUsers.map(user => user._id === userId ? { ...user, disabled } : user)`. */
  function Marked(users: seq<ListedUser>, userId: UserId, disabled: bool): (r: seq<ListedUser>)
    ensures |r| == |users|
    ensures forall i :: 0 <= i < |r| && users[i].id == userId ==>
      r[i].id == userId && r[i].user.disabled == disabled && r[i].user.(disabled := users[i].user.disabled) == users[i].user
    ensures forall i :: 0 <= i < |r| && users[i].id != userId ==> r[i] == users[i]
  {
    seq(|users|, i requires 0 <= i < |users| =>
      if users[i].id == userId then ListedUser(userId, users[i].user.(disabled := disabled)) else users[i])
  }

  /** The list shows the stored users: every row is the stored record under its id. */
  ghost predicate Mirrors(list: seq<ListedUser>, store: map<UserId, User>) {
    forall i :: 0 <= i < |list| ==> list[i].id in store && list[i].user == store[list[i].id]
  }

  /** After the server's successful disable or enable the locally marked list still shows the
      store, which the server changed in the target's flag only. */
  lemma MarkedKeepsMirror(list: seq<ListedUser>, store: map<UserId, User>, a: Action, id: UserId)
    requires Mirrors(list, store) && id in store
    ensures Mirrors(Marked(list, id, a == Disable), store[id := store[id].(disabled := a == Disable)])
  {
    var after := Marked(list, id, a == Disable);
    var changed := store[id := store[id].(disabled := a == Disable)];
    forall i | 0 <= i < |after|
      ensures after[i].id in changed && after[i].user == changed[after[i].id]
    {
      if list[i].id == id {
        assert after[i].user == list[i].user.(disabled := a == Disable);
      } else {
        assert after[i] == list[i];
      }
    }
  }

  /** `toggleDropdown`: the open menu closes, any other one opens. */
  function Toggled(open: Option<UserId>, userId: UserId): (r: Option<UserId>)
    ensures r.None? <==> open == Some(userId)
    ensures r.Some? ==> r.value == userId
  {
    if open == Some(userId) then None else Some(userId)
  }

  /** Toggling the same row twice leaves it as it was when it started open, and closed otherwise. */
  lemma ToggleTwice(open: Option<UserId>, userId: UserId)
    ensures Toggled(Toggled(open, userId), userId) == (if open == Some(userId) then open else None)
  {
  }

  class UserList {
    var users: seq<ListedUser>
    var openDropdown: Option<UserId>

    constructor (users: seq<ListedUser>)
      ensures this.users == users && openDropdown.None?
    {
      this.users := users;
      openDropdown := None;
    }

    /** `handleDisableUser` / `handleEnableUser` once the `PATCH` has answered: on success the
        matching row's flag is set and the menu closes; on failure nothing changes. */
    method AfterPatch(a: Action, userId: UserId, succeeded: bool)
      modifies this
      ensures succeeded ==> users == Marked(old(users), userId, a == Disable) && openDropdown.None?
      ensures !succeeded ==> users == old(users) && openDropdown == old(openDropdown)
    {
      if succeeded {
        users := Marked(users, userId, a == Disable);
        openDropdown := None;
      }
    }

    method ToggleDropdown(userId: UserId)
      modifies this
      ensures openDropdown == Toggled(old(openDropdown), userId) && users == old(users)
    {
      openDropdown := Toggled(openDropdown, userId);
    }
  }
}
