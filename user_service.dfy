/** The user service: registration with unique usernames and encoded passwords,
    lookup, password check and password change.  The password encoder is a pair
    of functions the model leaves uninterpreted. */
module Users {
  import opened Base
  import opened Entities
  import opened Seqs

  const UsernameTaken: string := "Username already exists"
  const UserNotFound: string := "User not found"

  /** What registration stores for an accepted user: the encoded password and
      `enabled` defaulting to true, under the given id. */
  function Registered(u: User, encode: string -> string, id: int): (r: User)
    ensures r.id == Some(id) && r.username == u.username && r.email == u.email && r.role == u.role
    ensures r.password == encode(u.password)
    ensures u.enabled.None? ==> r.enabled == Some(true)
    ensures u.enabled.Some? ==> r.enabled == u.enabled
  {
    var enabled := if u.enabled.None? then Some(true) else u.enabled;
    u.(id := Some(id), password := encode(u.password), enabled := enabled)
  }

  class UserService {
    /** The user repository, by id. */
    var users: map<int, User>
    /** The next identity value the database hands out. */
    var nextId: int
    /** `PasswordEncoder.encode` and `PasswordEncoder.matches`. */
    const encode: string -> string
    const matches: (string, string) -> bool

    /** Ids match their rows and no two users share a username. */
    ghost predicate Valid()
      reads this
    {
      (forall k :: k in users ==> k < nextId && users[k].id == Some(k))
      && (forall j, k :: j in users && k in users && j != k ==> users[j].username != users[k].username)
    }

    ghost function Usernames(): set<string>
      reads this
    {
      set k | k in users :: users[k].username
    }

    /** The user with this username, if any (unique by `Valid`). */
    ghost function Lookup(username: string): (r: Option<User>)
      reads this
      ensures r.Some? <==> username in Usernames()
      ensures r.Some? ==> r.value.username == username && r.value in users.Values
    {
      if username in Usernames() then
        var k :| k in users && users[k].username == username;
        Some(users[k])
      else None
    }

    constructor (encode: string -> string, matches: (string, string) -> bool)
      ensures Valid() && users == map[] && this.encode == encode && this.matches == matches
    {
      users := map[];
      nextId := 1;
      this.encode := encode;
      this.matches := matches;
    }

    /** `registerUser`: a taken username is refused and nothing is stored;
        otherwise one user with a fresh username is added. */
    method RegisterUser(u: User) returns (r: Result<User, string>)
      requires Valid()
      modifies this`users, this`nextId
      ensures Valid()
      ensures r.Err? <==> u.username in old(Usernames())
      ensures r.Err? ==> r.error == UsernameTaken && users == old(users) && nextId == old(nextId)
      ensures r.Ok? ==> r.value == Registered(u, encode, old(nextId))
                        && users == old(users)[old(nextId) := r.value] && nextId == old(nextId) + 1
                        && Usernames() == old(Usernames()) + {u.username}
    {
      var existing := FindByUsername(u.username);
      if existing.Some? {
        return Err(UsernameTaken);
      }
      var user := u.(password := encode(u.password));
      if user.enabled.None? {
        user := user.(enabled := Some(true));
      }
      user := user.(id := Some(nextId));
      users := users[nextId := user];
      nextId := nextId + 1;
      r := Ok(user);
    }

    /** `findByUsername`: the user with exactly this username, if any. */
    method FindByUsername(username: string) returns (r: Option<User>)
      requires Valid()
      ensures r == Lookup(username)
    {
      var keys := users.Keys;
      while keys != {}
        invariant keys <= users.Keys
        invariant forall k :: k in users && k !in keys ==> users[k].username != username
        decreases |keys|
      {
        var k := Pick(keys);
        if users[k].username == username {
          assert Valid();
          LookupUnique(username, k);
          return Some(users[k]);
        }
        keys := keys - {k};
      }
      return None;
    }

    /** The stored user with a given username is the one `Lookup` returns. */
    lemma LookupUnique(username: string, k: int)
      requires Valid() && k in users && users[k].username == username
      ensures Lookup(username) == Some(users[k])
    {
      var j :| j in users && users[j].username == username && Lookup(username) == Some(users[j]);
    }

    /** `validatePassword`: the encoder's verdict on a raw and an encoded password. */
    function ValidatePassword(raw: string, encoded: string): bool
      reads this
    {
      matches(raw, encoded)
    }

    /** `updatePassword`: an unknown username is refused and nothing changes;
        otherwise only that user's password changes, to the encoding of the new one. */
    method UpdatePassword(username: string, newPassword: string) returns (r: Result<(), string>)
      requires Valid()
      modifies this`users
      ensures Valid() && Usernames() == old(Usernames())
      ensures r.Err? <==> username !in old(Usernames())
      ensures r.Err? ==> r.error == UserNotFound && users == old(users)
      ensures r.Ok? ==> var u := old(Lookup(username)).value;
                        users == old(users)[u.id.value := u.(password := encode(newPassword))]
    {
      var found := FindByUsername(username);
      if found.None? {
        return Err(UserNotFound);
      }
      var user := found.value;
      assert user.id.Some? && users[user.id.value] == user by {
        var k :| k in users && users[k] == user;
      }
      users := users[user.id.value := user.(password := encode(newPassword))];
      assert Usernames() == old(Usernames()) by {
        forall n | n in old(Usernames()) ensures n in Usernames() {
          var k :| k in old(users) && old(users)[k].username == n;
          assert users[k].username == n;
        }
      }
      r := Ok(());
    }
  }
}
