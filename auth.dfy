/** The session of `lib/auth.ts`: one "current user" slot, filled by a
    successful login and cleared by logout. The user list comes from seed data
    and is a constructor parameter. */
module Auth {
  import opened Wrappers
  import opened Types
  import opened Seqs

  /** The one password every seeded user logs in with. */
  const SentinelPassword: string := "password"

  /** `k` is the index of the first user registered under `email`. */
  predicate IsFirstWithEmail(users: seq<User>, email: string, k: int) {
    IsFirstWhere(users, (u: User) => u.email == email, k)
  }

  /** The first user registered under `email`, or none. */
  function UserByEmail(users: seq<User>, email: string): (r: Option<User>)
    ensures r.None? <==> forall j :: 0 <= j < |users| ==> users[j].email != email
    ensures forall k :: IsFirstWithEmail(users, email, k) ==> r == Some(users[k])
  {
    Find(users, (u: User) => u.email == email)
  }

  /** The decision `login` takes: the first user with that email, provided
      one exists and the password is the sentinel; otherwise none. */
  function Authenticate(users: seq<User>, email: string, password: string): (r: Option<User>)
    ensures r.Some? <==> password == SentinelPassword && exists j :: 0 <= j < |users| && users[j].email == email
    ensures r.Some? ==> r == UserByEmail(users, email) && r.value.email == email
  {
    var user := UserByEmail(users, email);
    if user.Some? && password == SentinelPassword then user else None
  }

  /** `isAdmin()` on a given stored user: a user is present and is an admin. */
  predicate IsAdminUser(user: Option<User>) {
    user.Some? && user.value.role == RoleAdmin
  }

  /** A login that succeeds for a user who is an admin makes `isAdmin` true;
      for any other user it makes it false. */
  lemma {:induction false} LoginDecidesAdmin(users: seq<User>, email: string, k: int)
    requires IsFirstWithEmail(users, email, k)
    ensures IsAdminUser(Authenticate(users, email, SentinelPassword)) <==> users[k].role == RoleAdmin
  {
    assert Authenticate(users, email, SentinelPassword) == UserByEmail(users, email);
    assert UserByEmail(users, email) == Some(users[k]);
  }

  /** The single current-user slot. */
  class Session {
    const users: seq<User>
    var current: Option<User>

    /** A session over `users` whose slot initially holds `stored`. */
    constructor (users: seq<User>, stored: Option<User>)
      ensures this.users == users && current == stored
    {
      this.users := users;
      current := stored;
    }

    /** `login`: on success the slot holds the returned user; on failure it
        is left as it was. */
    method Login(email: string, password: string) returns (r: Option<User>)
      modifies this
      ensures r == Authenticate(users, email, password)
      ensures current == if r.Some? then r else old(current)
    {
      var user := UserByEmail(users, email);
      if user.Some? && password == SentinelPassword {
        current := user;
        return user;
      }
      return None;
    }

    /** `logout`: empties the slot, so no user and no admin remain. */
    method Logout()
      modifies this
      ensures current == None
      ensures GetCurrentUser() == None && !IsAdmin()
    {
      current := None;
    }

    /** `getCurrentUser()`: the user in the slot, if any. */
    function GetCurrentUser(): Option<User>
      reads this
    {
      current
    }

    /** `isAdmin()`: true exactly when a user is stored and has role admin. */
    predicate IsAdmin()
      reads this
      ensures IsAdmin() <==> current.Some? && current.value.role == RoleAdmin
    {
      IsAdminUser(current)
    }
  }
}
