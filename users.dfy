/**
 * The user collection as the account and listing handlers see it: lookups
 * by id, email and username that return the first match, creation, and the
 * three updates the handlers issue (password, username, `$addToSet` on the
 * role list). The user schema itself is not part of this model.
 */
module Users {
  import opened Wrappers

  /** A stored user; `password` holds the hash. */
  datatype User = User(id: string, email: string, password: string, username: string, role: seq<string>)

  /** The user as replied to clients: the password set to `undefined`. */
  datatype PublicUser = PublicUser(id: string, email: string, username: string, role: seq<string>)

  function Public(u: User): PublicUser {
    PublicUser(u.id, u.email, u.username, u.role)
  }

  /** The position of the first user satisfying `p` (`findOne` of a filter). */
  function IndexWhere(users: seq<User>, p: User -> bool): (r: Option<nat>)
    ensures r.Some? ==> r.value < |users| && p(users[r.value]) && forall j :: 0 <= j < r.value ==> !p(users[j])
    ensures r.None? ==> forall j :: 0 <= j < |users| ==> !p(users[j])
  {
    if users == [] then None
    else if p(users[0]) then Some(0)
    else
      var rest := IndexWhere(users[1..], p);
      if rest.Some? then Some(rest.value + 1) else None
  }

  function FindById(users: seq<User>, id: string): Option<nat> {
    IndexWhere(users, (u: User) => u.id == id)
  }

  function FindByEmail(users: seq<User>, email: string): Option<nat> {
    IndexWhere(users, (u: User) => u.email == email)
  }

  function FindByUsername(users: seq<User>, username: string): Option<nat> {
    IndexWhere(users, (u: User) => u.username == username)
  }

  /** `$addToSet`: the value is appended unless already present. */
  function AddToSet(values: seq<string>, v: string): (r: seq<string>)
    ensures v in r
    ensures forall x :: x in values ==> x in r
    ensures forall x :: x in r ==> x in values || x == v
    ensures v in values ==> r == values
  {
    if v in values then values else values + [v]
  }

  function Occurrences(values: seq<string>, v: string): nat {
    if values == [] then 0 else (if values[0] == v then 1 else 0) + Occurrences(values[1..], v)
  }

  lemma {:induction false} OccurrencesAppend(values: seq<string>, w: string, v: string)
    ensures Occurrences(values + [w], v) == Occurrences(values, v) + (if w == v then 1 else 0)
  {
    if values != [] {
      assert (values + [w])[1..] == values[1..] + [w];
      OccurrencesAppend(values[1..], w, v);
    } else {
      assert [] + [w] == [w];
    }
  }

  lemma {:induction false} OccurrencesPositive(values: seq<string>, v: string)
    ensures v in values <==> Occurrences(values, v) > 0
  {
    if values != [] {
      OccurrencesPositive(values[1..], v);
      assert v in values <==> values[0] == v || v in values[1..];
    }
  }

  /**
   * Adding a role twice is adding it once, and a role list holding the role
   * at most once holds it exactly once afterwards.
   */
  lemma AddToSetIsSetInsertion(values: seq<string>, v: string)
    ensures AddToSet(AddToSet(values, v), v) == AddToSet(values, v)
    ensures Occurrences(values, v) <= 1 ==> Occurrences(AddToSet(values, v), v) == 1
  {
    OccurrencesPositive(values, v);
    if v !in values {
      OccurrencesAppend(values, v, v);
    }
  }

  /** The user at `i` replaced by `f` of it; everyone else untouched. */
  function UpdateAt(users: seq<User>, i: Option<nat>, f: User -> User): (r: seq<User>)
    requires i.Some? ==> i.value < |users|
    ensures |r| == |users|
    ensures forall j :: 0 <= j < |users| && (i.None? || j != i.value) ==> r[j] == users[j]
    ensures i.Some? ==> r[i.value] == f(users[i.value])
  {
    if i.None? then users else users[i.value := f(users[i.value])]
  }

  /** `findByIdAndUpdate(id, { $addToSet: { role } })`. */
  function AddRoleState(users: seq<User>, id: string, role: string): seq<User> {
    UpdateAt(users, FindById(users, id), (u: User) => u.(role := AddToSet(u.role, role)))
  }

  /** `findByIdAndUpdate(id, { password })`. */
  function SetPasswordState(users: seq<User>, id: string, hash: string): seq<User> {
    UpdateAt(users, FindById(users, id), (u: User) => u.(password := hash))
  }

  /** `findByIdAndUpdate(id, { username })`. */
  function SetUsernameState(users: seq<User>, id: string, username: string): seq<User> {
    UpdateAt(users, FindById(users, id), (u: User) => u.(username := username))
  }

  /** No two users share an email; no two share a username. */
  predicate UniqueEmails(users: seq<User>) {
    forall i, j :: 0 <= i < j < |users| ==> users[i].email != users[j].email
  }

  predicate UniqueUsernames(users: seq<User>) {
    forall i, j :: 0 <= i < j < |users| ==> users[i].username != users[j].username
  }

  /**
   * The role update touches only the caller's role list: afterwards it
   * holds "Seller" (once, if it held it at most once), every other field and
   * user is unchanged, and an unknown id changes nothing.
   */
  lemma AddRoleTouchesOnlyRoles(users: seq<User>, id: string, role: string)
    ensures var after := AddRoleState(users, id, role);
      && |after| == |users|
      && (forall j :: 0 <= j < |users| ==>
            && after[j].id == users[j].id && after[j].email == users[j].email
            && after[j].password == users[j].password && after[j].username == users[j].username)
      && (FindById(users, id).None? ==> after == users)
      && (FindById(users, id).Some? ==>
            var i := FindById(users, id).value;
            && role in after[i].role
            && (Occurrences(users[i].role, role) <= 1 ==> Occurrences(after[i].role, role) == 1))
      && UniqueEmails(users) == UniqueEmails(after)
      && UniqueUsernames(users) == UniqueUsernames(after)
  {
    var i := FindById(users, id);
    if i.Some? {
      AddToSetIsSetInsertion(users[i.value].role, role);
    }
  }

  /** The user collection. */
  class UserStore {
    var users: seq<User>

    constructor (users: seq<User>)
      ensures this.users == users
    {
      this.users := users;
    }

    /** `User.create(..)`. */
    method Create(u: User)
      modifies this
      ensures users == old(users) + [u]
    {
      users := users + [u];
    }

    /** `findByIdAndUpdate(id, { $addToSet: { role } })`. */
    method AddRole(id: string, role: string)
      modifies this
      ensures users == AddRoleState(old(users), id, role)
    {
      var i := FindById(users, id);
      if i.Some? {
        var u := users[i.value];
        users := users[i.value := u.(role := AddToSet(u.role, role))];
      }
    }

    /** `findByIdAndUpdate(id, { password })`. */
    method SetPassword(id: string, hash: string)
      modifies this
      ensures users == SetPasswordState(old(users), id, hash)
    {
      var i := FindById(users, id);
      if i.Some? {
        users := users[i.value := users[i.value].(password := hash)];
      }
    }

    /** `user.password = hash; user.save()` on the document found at position `i`. */
    method SavePasswordAt(i: nat, hash: string)
      requires i < |users|
      modifies this
      ensures users == old(users)[i := old(users)[i].(password := hash)]
    {
      users := users[i := users[i].(password := hash)];
    }

    /** `findByIdAndUpdate(id, { username }, { new: true })`: the updated user, or none for an unknown id. */
    method SetUsername(id: string, username: string) returns (updated: Option<User>)
      modifies this
      ensures users == SetUsernameState(old(users), id, username)
      ensures updated.Some? <==> FindById(old(users), id).Some?
      ensures updated.Some? ==> updated.value == users[FindById(old(users), id).value]
    {
      var i := FindById(users, id);
      if i.Some? {
        users := users[i.value := users[i.value].(username := username)];
        updated := Some(users[i.value]);
      } else {
        updated := None;
      }
    }
  }
}
