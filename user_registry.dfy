/** The user registry of user_base.py (class UserManager): users stored under
    their user name, each with a sequential id issued at creation. */
module UserRegistry {
  import opened Messages
  import opened Ids

  const MaxNameLength := 64
  const MaxDisplayNameLength := 64

  /** A parsed create_user request. The display name is measured with len()
      by the source, so it is modelled as present. */
  datatype UserRequest = UserRequest(name: Option<string>, displayName: string)

  /** A stored user record. */
  datatype User = User(
    id: string,
    name: string,
    displayName: string,
    creationTime: string,
    description: string)

  /** The success answer of describe_user. */
  datatype UserView = UserView(name: string, description: string, creationTime: string)

  /** A user name is accepted when present, non-empty and at most 64 characters. */
  predicate IsValidName(name: Option<string>)
  {
    name.Some? && name.value != "" && |name.value| <= MaxNameLength
  }

  /** Every user is stored under its own name, every id was issued by one of
      the |users| allocations so far, and no two users share an id. */
  predicate UsersWellFormed(users: map<string, User>)
  {
    && (forall k :: k in users ==> users[k].name == k && users[k].id in IdSet(|users|))
    && (forall k1, k2 :: k1 in users && k2 in users && k1 != k2 ==> users[k1].id != users[k2].id)
  }

  /** Storing a new user under a fresh name with the next sequential id keeps
      the table well formed, and the new id differs from every existing one. */
  lemma {:induction false} InsertUserWellFormed(users: map<string, User>, u: User)
    requires UsersWellFormed(users)
    requires u.name !in users
    requires u.id == DecimalString(|users| + 1)
    ensures forall k :: k in users ==> users[k].id != u.id
    ensures |users[u.name := u]| == |users| + 1
    ensures UsersWellFormed(users[u.name := u])
  {
    var n := |users|;
    IdSetMembership(n, n + 1);
    assert IdSet(n + 1) == IdSet(n) + {u.id};
  }

  class UserManager {
    /** The registered users, keyed by user name. */
    var users: map<string, User>

    ghost predicate Valid()
      reads this
    {
      UsersWellFormed(users)
    }

    constructor ()
      ensures Valid() && users == map[]
    {
      users := map[];
    }

    /** create_user: the name must be present, non-empty and at most 64
        characters, then the display name at most 64 characters, then the
        name must be new. The user is stored under its name with id
        str(|users| + 1), creation time now and an empty description. */
    method CreateUser(req: UserRequest, now: string) returns (r: Response<string>)
      requires Valid()
      modifies this
      ensures Valid()
      ensures r.Ok? <==>
        && IsValidName(req.name)
        && |req.displayName| <= MaxDisplayNameLength
        && req.name.value !in old(users)
      ensures !IsValidName(req.name) ==> r == Err("Invalid user name")
      ensures IsValidName(req.name) && |req.displayName| > MaxDisplayNameLength ==>
        r == Err("Display name exceeds maximum length")
      ensures (IsValidName(req.name) && |req.displayName| <= MaxDisplayNameLength &&
               req.name.value in old(users)) ==>
        r == Err("User name already exists")
      ensures r.Err? ==> users == old(users)
      ensures r.Ok? ==> r.value == DecimalString(|old(users)| + 1)
      ensures r.Ok? ==> forall k :: k in old(users) ==> old(users)[k].id != r.value
      ensures r.Ok? ==> users == old(users)[req.name.value := User(r.value, req.name.value, req.displayName, now, "")]
      ensures r.Ok? ==> |users| == |old(users)| + 1
      ensures r.Ok? ==> DescribeUser(IdRequest(req.name)) == Ok(UserView(req.name.value, "", now))
    {
      if !IsValidName(req.name) {
        return Err("Invalid user name");
      }
      if |req.displayName| > MaxDisplayNameLength {
        return Err("Display name exceeds maximum length");
      }
      var name := req.name.value;
      if name in users {
        return Err("User name already exists");
      }
      var id := DecimalString(|users| + 1);
      var user := User(id, name, req.displayName, now, "");
      InsertUserWellFormed(users, user);
      users := users[name := user];
      r := Ok(id);
    }

    /** describe_user: a read-only lookup whose key is the user NAME (the key
        of the table), not the id that create_user returns. */
    function DescribeUser(req: IdRequest): (r: Response<UserView>)
      reads this
      ensures r.Ok? <==> req.id.Some? && req.id.value in users
      ensures r.Err? ==> r == Err("User not found")
      ensures r.Ok? ==>
        var u := users[req.id.value];
        r.value == UserView(u.name, u.description, u.creationTime)
      ensures Valid() && r.Ok? ==> r.value.name == req.id.value
    {
      if req.id.Some? && req.id.value in users then
        var u := users[req.id.value];
        Ok(UserView(u.name, u.description, u.creationTime))
      else
        Err("User not found")
    }
  }

  /** Successive registrations receive ids "1" and "2". */
  method SuccessiveRegistrations()
  {
    var m := new UserManager();
    var a := m.CreateUser(UserRequest(Some("alice"), "Alice"), "2024-01-01 00:00:00");
    assert a == Ok("1");
    var b := m.CreateUser(UserRequest(Some("bob"), "Bob"), "2024-01-01 00:00:02");
    assert b == Ok("2");
  }

  /** A user is described by name; the id that create_user returned is not a
      key of the table. */
  method DescribeByName()
  {
    var m := new UserManager();
    var a := m.CreateUser(UserRequest(Some("alice"), "Alice"), "2024-01-01 00:00:00");
    assert a == Ok("1");
    assert m.DescribeUser(IdRequest(Some("alice"))) == Ok(UserView("alice", "", "2024-01-01 00:00:00"));
    assert m.DescribeUser(IdRequest(Some("1"))) == Err("User not found");
  }
}
