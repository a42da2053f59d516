/**
 * The administrative endpoints. Each handler receives the caller resolved by
 * `get_current_user` and refuses with 403 anyone whose role is not "admin",
 * before it reads or writes anything.
 */
module Admin {
  import opened Wrappers
  import opened Errors
  import opened Models
  import opened Schemas
  import opened Crud

  const UserDeleted := "User deleted"

  /** A column that a `UserUpdate` can set. */
  datatype Field = EmailField | FullNameField | RoleField

  /** `updates.dict(exclude_unset=True).items()`: the set fields, in declaration order. */
  function SetFields(updates: UserUpdate): seq<(Field, string)>
  {
    (if updates.email.Some? then [(EmailField, updates.email.value)] else [])
    + (if updates.fullName.Some? then [(FullNameField, updates.fullName.value)] else [])
    + (if updates.role.Some? then [(RoleField, updates.role.value)] else [])
  }

  /** `setattr(user, field, value)` once the value has passed validation. */
  function SetAttr(u: User, field: Field, value: string): User
  {
    match field
    case EmailField => u.(email := value)
    case FullNameField => u.(fullName := value)
    case RoleField => u.(role := value)
  }

  /** The record after the `setattr` calls for `items`, in order. */
  function Overlay(u: User, items: seq<(Field, string)>): User
  {
    if items == [] then u else SetAttr(Overlay(u, items[..|items| - 1]), items[|items| - 1].0, items[|items| - 1].1)
  }

  /** What a patch means for a record: each set field replaced, every other column kept. */
  function Patched(u: User, updates: UserUpdate): User
  {
    User(u.id, updates.email.GetOr(u.email), u.hashedPassword, updates.fullName.GetOr(u.fullName), updates.role.GetOr(u.role))
  }

  /** Helper: one more assignment applies to the record built so far. */
  lemma OverlaySnoc(u: User, items: seq<(Field, string)>, x: (Field, string))
    ensures Overlay(u, items + [x]) == SetAttr(Overlay(u, items), x.0, x.1)
  {
    assert (items + [x])[..|items|] == items;
  }

  lemma OverlaySetFields(u: User, updates: UserUpdate)
    ensures Overlay(u, SetFields(updates)) == Patched(u, updates)
  {
    var e := if updates.email.Some? then [(EmailField, updates.email.value)] else [];
    var f := if updates.fullName.Some? then [(FullNameField, updates.fullName.value)] else [];
    var g := if updates.role.Some? then [(RoleField, updates.role.value)] else [];
    assert SetFields(updates) == e + f + g;
    var afterEmail := if updates.email.Some? then u.(email := updates.email.value) else u;
    if updates.email.Some? {
      OverlaySnoc(u, [], e[0]);
      assert [] + [e[0]] == e;
    }
    assert Overlay(u, e) == afterEmail;
    var afterName := if updates.fullName.Some? then afterEmail.(fullName := updates.fullName.value) else afterEmail;
    if updates.fullName.Some? {
      OverlaySnoc(u, e, f[0]);
      assert e + [f[0]] == e + f;
    } else {
      assert e + f == e;
    }
    assert Overlay(u, e + f) == afterName;
    if updates.role.Some? {
      OverlaySnoc(u, e + f, g[0]);
      assert e + f + [g[0]] == e + f + g;
    } else {
      assert e + f + g == e + f;
    }
  }

  /** The `for field, value in ...: setattr(user, field, value)` loop; assigning `role` runs `validate_role`. */
  method ApplyUpdates(user: User, updates: UserUpdate) returns (r: Result<User, Error>)
    ensures r.Err? <==> updates.role.Some? && !IsRole(updates.role.value)
    ensures r.Err? ==> r.error == Unhandled(InvalidRoleError)
    ensures r.Ok? ==> r.value == Patched(user, updates)
    ensures r.Ok? ==> r.value.id == user.id && r.value.hashedPassword == user.hashedPassword
  {
    var items := SetFields(updates);
    assert forall j :: 0 <= j < |items| && items[j].0 == RoleField ==> updates.role == Some(items[j].1);
    var u := user;
    for i := 0 to |items|
      invariant u == Overlay(user, items[..i])
      invariant forall j :: 0 <= j < i && items[j].0 == RoleField ==> IsRole(items[j].1)
    {
      var (field, value) := items[i];
      if field == RoleField {
        var validated := ValidateRole(value);
        if validated.Err? {
          return Err(Unhandled(validated.error));
        }
      }
      assert items[..i + 1][..i] == items[..i];
      u := SetAttr(u, field, value);
    }
    assert items[..|items|] == items;
    if updates.role.Some? {
      assert items[|items| - 1] == (RoleField, updates.role.value);
    }
    OverlaySetFields(user, updates);
    r := Ok(u);
  }

  /** `GET /users/all`: every user, as id, email, full name and role only. */
  function GetAllUsersList(store: Store, currentUser: User): (r: Result<set<UserView>, Error>)
    reads store
    ensures currentUser.role != AdminRole ==> r == Err(Status(Forbidden, NotEnoughPermissions))
    ensures currentUser.role == AdminRole ==>
              r.Ok? && forall v :: v in r.value <==> exists id :: id in store.users && View(store.users[id]) == v
  {
    if currentUser.role != AdminRole then Err(Status(Forbidden, NotEnoughPermissions))
    else
      var users := store.GetAllUsers();
      Ok(set u | u in users :: View(u))
  }

  /** `GET /users/{user_id}`. */
  function GetUser(store: Store, currentUser: User, userId: int): (r: Result<UserView, Error>)
    reads store
    requires store.Valid()
    ensures currentUser.role != AdminRole ==> r == Err(Status(Forbidden, NotEnoughPermissions))
    ensures currentUser.role == AdminRole && userId !in store.users ==> r == Err(Status(NotFound, UserNotFound))
    ensures r.Ok? <==> currentUser.role == AdminRole && userId in store.users
    ensures r.Ok? ==> r.value == View(store.users[userId]) && r.value.id == userId
  {
    if currentUser.role != AdminRole then Err(Status(Forbidden, NotEnoughPermissions))
    else
      var user := store.GetUserById(userId);
      if user.None? then Err(Status(NotFound, UserNotFound)) else Ok(View(user.value))
  }

  /** `GET /users/{user_id}/accounts`. */
  function GetUserAccountsList(store: Store, currentUser: User, userId: int): (r: Result<set<Account>, Error>)
    reads store
    ensures currentUser.role != AdminRole ==> r == Err(Status(Forbidden, NotEnoughPermissions))
    ensures currentUser.role == AdminRole ==>
              r.Ok? && forall a :: a in r.value <==> a in store.accounts.Values && a.ownerId == userId
  {
    if currentUser.role != AdminRole then Err(Status(Forbidden, NotEnoughPermissions))
    else Ok(store.GetUserAccounts(userId))
  }

  /** `POST /users/new`: builds a `User` (whose role is validated on assignment), then inserts it. */
  method CreateNewUser(store: Store, currentUser: User, user: UserCreate) returns (r: Result<UserView, Error>)
    requires store.Valid()
    modifies store
    ensures store.Valid()
    ensures old(store.RolesValid()) ==> store.RolesValid()
    ensures currentUser.role != AdminRole ==> r == Err(Status(Forbidden, NotEnoughPermissions)) && unchanged(store)
    ensures currentUser.role == AdminRole && !IsRole(user.role) ==> r == Err(Unhandled(InvalidRoleError)) && unchanged(store)
    ensures currentUser.role == AdminRole && IsRole(user.role) ==>
      && store.userSeq == old(store.userSeq) + 1
      && store.accounts == old(store.accounts) && store.payments == old(store.payments)
      && store.paymentSeq == old(store.paymentSeq)
      && (r.Ok? <==> old(store.userSeq) !in old(store.users) && old(store.GetUserByEmail(user.email)).None?)
      && (r.Ok? ==>
            var created := User(old(store.userSeq), user.email, user.hashedPassword, user.fullName, user.role);
            r.value == View(created) && store.users == old(store.users)[created.id := created])
      && (r.Err? ==> r.error == Unhandled(IntegrityError) && store.users == old(store.users))
  {
    if currentUser.role != AdminRole {
      return Err(Status(Forbidden, NotEnoughPermissions));
    }
    var role := ValidateRole(user.role);
    if role.Err? {
      return Err(Unhandled(role.error));
    }
    var created := store.CreateUser(user.email, user.hashedPassword, user.fullName, role.value);
    if created.Err? {
      return Err(Unhandled(created.error));
    }
    r := Ok(View(created.value));
  }

  /**
   * `PATCH /users/{user_id}`: loads the row, applies the set fields, then writes
   * every column of the patched record back.
   */
  method UpdateExistingUser(store: Store, currentUser: User, userId: int, updates: UserUpdate) returns (r: Result<UserView, Error>)
    requires store.Valid()
    modifies store
    ensures store.Valid()
    ensures old(store.RolesValid()) ==> store.RolesValid()
    ensures store.accounts == old(store.accounts) && store.payments == old(store.payments)
    ensures store.userSeq == old(store.userSeq) && store.paymentSeq == old(store.paymentSeq)
    ensures currentUser.role != AdminRole ==> r == Err(Status(Forbidden, NotEnoughPermissions)) && unchanged(store)
    ensures currentUser.role == AdminRole && userId !in old(store.users) ==>
              r == Err(Status(NotFound, UserNotFound)) && unchanged(store)
    ensures currentUser.role == AdminRole && userId in old(store.users) && updates.role.Some? && !IsRole(updates.role.value) ==>
              r == Err(Unhandled(InvalidRoleError)) && unchanged(store)
    ensures currentUser.role == AdminRole && userId in old(store.users) && !(updates.role.Some? && !IsRole(updates.role.value)) ==>
      var updated := Patched(old(store.users)[userId], updates);
      if exists id :: id in old(store.users) && id != userId && old(store.users)[id].email == updated.email
      then r == Err(Unhandled(IntegrityError)) && unchanged(store)
      else r == Ok(View(updated)) && store.users == old(store.users)[userId := updated]
  {
    if currentUser.role != AdminRole {
      return Err(Status(Forbidden, NotEnoughPermissions));
    }
    var user := store.GetUserById(userId);
    if user.None? {
      return Err(Status(NotFound, UserNotFound));
    }
    var patched := ApplyUpdates(user.value, updates);
    if patched.Err? {
      return Err(patched.error);
    }
    var u := patched.value;
    var userDict := UserColumns(Some(u.email), Some(u.hashedPassword), Some(u.fullName), Some(u.role));
    var written := store.UpdateUser(userId, userDict);
    if written.Err? {
      return Err(Unhandled(written.error));
    }
    r := Ok(View(u));
  }

  /** `DELETE /users/{user_id}`: answers "User deleted" whether or not the id existed. */
  method DeleteExistingUser(store: Store, currentUser: User, userId: int) returns (r: Result<string, Error>)
    requires store.Valid()
    modifies store
    ensures store.Valid()
    ensures old(store.RolesValid()) ==> store.RolesValid()
    ensures store.payments == old(store.payments)
    ensures store.userSeq == old(store.userSeq) && store.paymentSeq == old(store.paymentSeq)
    ensures currentUser.role != AdminRole ==> r == Err(Status(Forbidden, NotEnoughPermissions)) && unchanged(store)
    ensures currentUser.role == AdminRole ==>
      if old(store.GetUserPayments(userId)) != {}
      then r == Err(Unhandled(IntegrityError)) && unchanged(store)
      else && r == Ok(UserDeleted)
           && store.users == old(store.users) - {userId}
           && store.accounts == map a | a in old(store.accounts) && old(store.accounts)[a].ownerId != userId :: old(store.accounts)[a]
  {
    if currentUser.role != AdminRole {
      return Err(Status(Forbidden, NotEnoughPermissions));
    }
    var deleted := store.DeleteUser(userId);
    if deleted.Err? {
      return Err(Unhandled(deleted.error));
    }
    r := Ok(UserDeleted);
  }
}
