/**
 * The in-memory user store: a map from user id to the user's record. Usernames and emails are
 * unique across the store, and only a hash of the password is kept.
 */
module UserModel {
  import opened Wrappers
  import opened Constants

  datatype User = User(
    id: string,
    username: string,
    email: string,
    passwordHash: string,
    createdAt: int,
    lastLogin: Option<int>)

  /** toJSON: every field except passwordHash. */
  datatype UserJson = UserJson(id: string, username: string, email: string, createdAt: int, lastLogin: Option<int>)

  function ToJson(u: User): (j: UserJson)
    ensures j.id == u.id && j.username == u.username && j.email == u.email
    ensures j.createdAt == u.createdAt && j.lastLogin == u.lastLogin
  {
    UserJson(u.id, u.username, u.email, u.createdAt, u.lastLogin)
  }

  /** The JSON form reveals nothing about the hash: users differing only in it look the same. */
  lemma ToJsonHidesHash(u: User, otherHash: string)
    ensures ToJson(u) == ToJson(u.(passwordHash := otherHash))
  {
  }

  /** No two distinct ids of `users` share a username or an email, and each user is under its id. */
  ghost predicate Unique(users: map<string, User>) {
    && (forall id :: id in users ==> users[id].id == id)
    && (forall a, b :: a in users && b in users && a != b ==>
          users[a].username != users[b].username && users[a].email != users[b].email)
  }

  /** Some stored user has this username. */
  predicate UsernameTaken(users: map<string, User>, username: string) {
    exists id :: id in users && users[id].username == username
  }

  /** Some stored user has this email. */
  predicate EmailTaken(users: map<string, User>, email: string) {
    exists id :: id in users && users[id].email == email
  }

  /** Partway through findAll: the users taken off `remaining` are listed once each, and no other. */
  ghost predicate ListedOnce(us: seq<User>, users: map<string, User>, remaining: set<string>) {
    && remaining <= users.Keys
    && |us| + |remaining| == |users.Keys|
    && (forall i :: 0 <= i < |us| ==> us[i].id in users && us[i].id !in remaining && users[us[i].id] == us[i])
    && (forall id :: id in users && id !in remaining ==> users[id] in us)
    && (forall i, j :: 0 <= i < j < |us| ==> us[i].id != us[j].id)
  }

  /** Listing one more remaining user, stored under its own id, keeps findAll on track. */
  lemma ListStep(us: seq<User>, users: map<string, User>, remaining: set<string>, id: string)
    requires ListedOnce(us, users, remaining) && id in remaining && users[id].id == id
    ensures ListedOnce(us + [users[id]], users, remaining - {id})
  {
  }

  class UserStore {
    var users: map<string, User>

    ghost predicate Valid()
      reads this
    {
      Unique(users)
    }

    constructor ()
      ensures Valid() && users == map[]
    {
      users := map[];
    }

    /** findById: the stored user, or none. */
    function FindById(id: string): (r: Option<User>)
      reads this
      ensures r.Some? <==> id in users
      ensures r.Some? ==> r.value == users[id]
    {
      if id in users then Some(users[id]) else None
    }

    /** The `Array.from(users.values()).find(matches) || null` both lookups share. */
    method Search(matches: User -> bool) returns (r: Option<User>)
      ensures r.Some? ==> r.value in users.Values && matches(r.value)
      ensures r.None? ==> forall id :: id in users ==> !matches(users[id])
    {
      var remaining := users.Keys;
      while remaining != {}
        invariant remaining <= users.Keys
        invariant forall id :: id in users && id !in remaining ==> !matches(users[id])
        decreases remaining
      {
        var id :| id in remaining;
        if matches(users[id]) {
          return Some(users[id]);
        }
        remaining := remaining - {id};
      }
      return None;
    }

    /** findByUsername: the user with that username, or none exactly when nobody has it. */
    method FindByUsername(username: string) returns (r: Option<User>)
      ensures r.Some? ==> r.value in users.Values && r.value.username == username
      ensures r.None? ==> forall id :: id in users ==> users[id].username != username
    {
      r := Search((u: User) => u.username == username);
    }

    /** findByEmail: the user with that email, or none exactly when nobody has it. */
    method FindByEmail(email: string) returns (r: Option<User>)
      ensures r.Some? ==> r.value in users.Values && r.value.email == email
      ensures r.None? ==> forall id :: id in users ==> users[id].email != email
    {
      r := Search((u: User) => u.email == email);
    }

    /** findAll: every stored user exactly once. */
    method FindAll() returns (us: seq<User>)
      requires Valid()
      ensures |us| == |users|
      ensures forall i :: 0 <= i < |us| ==> us[i].id in users && users[us[i].id] == us[i]
      ensures forall id :: id in users ==> users[id] in us
      ensures forall i, j :: 0 <= i < j < |us| ==> us[i].id != us[j].id
    {
      us := [];
      var remaining := users.Keys;
      while remaining != {}
        invariant ListedOnce(us, users, remaining)
        decreases remaining
      {
        var id :| id in remaining;
        ListStep(us, users, remaining, id);
        us := us + [users[id]];
        remaining := remaining - {id};
      }
    }

    /**
     * create: refuses a taken username (checked first) or a taken email and then changes nothing;
     * otherwise stores one new user under `freshId` (the uuid oracle's value) holding
     * `hash(password)`, never logged in, created at `now`.
     */
    method Create(username: string, email: string, password: string, hash: string -> string,
                  freshId: string, now: int) returns (r: Result<User, ErrorCode>)
      requires Valid() && freshId !in users
      modifies this
      ensures Valid()
      ensures UsernameTaken(old(users), username) ==> r == Err(UserExists) && users == old(users)
      ensures !UsernameTaken(old(users), username) && EmailTaken(old(users), email) ==> r == Err(EmailExists) && users == old(users)
      ensures r.Ok? <==> !UsernameTaken(old(users), username) && !EmailTaken(old(users), email)
      ensures r.Ok? ==>
        && r.value == User(freshId, username, email, hash(password), now, None)
        && users == old(users)[freshId := r.value]
      ensures Count() == if r.Ok? then old(Count()) + 1 else old(Count())
    {
      var byName := FindByUsername(username);
      if byName.Some? {
        return Err(UserExists);
      }
      var byEmail := FindByEmail(email);
      if byEmail.Some? {
        return Err(EmailExists);
      }
      var passwordHash := hash(password);
      var user := User(freshId, username, email, passwordHash, now, None);
      users := users[freshId := user];
      return Ok(user);
    }

    /** updateLastLogin: only that user's lastLogin changes, to `now`; an absent id changes nothing. */
    method UpdateLastLogin(id: string, now: int) returns (r: Option<User>)
      requires Valid()
      modifies this
      ensures Valid()
      ensures id !in old(users) ==> r.None? && users == old(users)
      ensures id in old(users) ==> r == Some(old(users)[id].(lastLogin := Some(now))) && users == old(users)[id := r.value]
    {
      if id in users {
        var user := users[id].(lastLogin := Some(now));
        users := users[id := user];
        return Some(user);
      }
      return None;
    }

    /** delete: true exactly when the id was stored; it is removed. */
    method Delete(id: string) returns (existed: bool)
      requires Valid()
      modifies this
      ensures Valid()
      ensures existed == (id in old(users)) && users == old(users) - {id}
      ensures Count() == if existed then old(Count()) - 1 else old(Count())
    {
      existed := id in users;
      users := users - {id};
    }

    /** count: the number of stored users. */
    function Count(): (n: nat)
      reads this
      ensures n == |users.Keys|
      ensures n == 0 <==> users == map[]
    {
      assert users != map[] ==> exists id :: id in users;
      |users|
    }

    /** clearAll: empties the store. */
    method ClearAll()
      modifies this
      ensures Valid() && users == map[]
    {
      users := map[];
    }
  }
}
