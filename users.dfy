/** The Users service of one domain: an in-memory table from qualified user id
    ("name@domain") to user record, with create, get, update, delete and search. */
module Users {
  import opened Common

  /** tp1.api.User, constructed as User(userId, fullName, email, password).
      Any field of a record received from a client may be null. */
  datatype User = User(userId: Option<string>, fullName: Option<string>, email: Option<string>, password: Option<string>)

  /** No field of `u` is null: what createUser demands. */
  predicate Complete(u: User): (b: bool)
    ensures b <==> None !in [u.userId, u.fullName, u.email, u.password]
  {
    u.userId.Some? && u.fullName.Some? && u.email.Some? && u.password.Some?
  }

  /** The key under which a user created in `domainId` is stored. */
  function QualifiedId(userId: string, domainId: string): (q: string)
    ensures |q| == |userId| + 1 + |domainId|
    ensures q[..|userId|] == userId && q[|userId|] == '@' && q[|userId| + 1..] == domainId
  {
    userId + "@" + domainId
  }

  const InvalidUserMessage := "User object invalid."
  const UserExistsMessage := "User already exists."
  const NullCredentialsMessage := "UserId or passwrod null."
  const NoSuchUserMessage := "User does not exist."
  const WrongPasswordMessage := "Password is incorrect."

  class UsersResource {
    const domainId: string
    const serviceType: ServiceType
    var users: map<string, User>

    constructor (domainId: string, serviceType: ServiceType)
      ensures this.domainId == domainId && this.serviceType == serviceType
      ensures users == map[]
    {
      this.domainId := domainId;
      this.serviceType := serviceType;
      users := map[];
    }

    /** getUser: authenticate `userId` with `password` and return the stored
        record. Reading the stored record's password when it is null (a record
        stored by updateUser with a null password) raises NullPointerException. */
    function GetUser(userId: Option<string>, password: Option<string>): (r: Result<User>)
      reads this
      ensures r.Ok? <==> userId.Some? && password.Some? && userId.value in users
                         && users[userId.value].password == password
      ensures r.Ok? ==> r.value == users[userId.value]
      ensures (userId.None? || password.None?) ==>
                r == Err(Raise(serviceType, NullCredentialsMessage, BadRequest))
      ensures userId.Some? && password.Some? && userId.value !in users ==>
                r == Err(Raise(serviceType, NoSuchUserMessage, NotFound))
      ensures userId.Some? && password.Some? && userId.value in users ==>
                (users[userId.value].password.None? <==> r == Err(NullPointer))
      ensures userId.Some? && password.Some? && userId.value in users
              && users[userId.value].password.Some? && users[userId.value].password != password ==>
                r == Err(Raise(serviceType, WrongPasswordMessage, Forbidden))
    {
      if userId.None? || password.None? then
        Err(Raise(serviceType, NullCredentialsMessage, BadRequest))
      else if userId.value !in users then
        Err(Raise(serviceType, NoSuchUserMessage, NotFound))
      else
        var user := users[userId.value];
        if user.password.None? then Err(NullPointer)
        else if user.password.value != password.value then
          Err(Raise(serviceType, WrongPasswordMessage, Forbidden))
        else Ok(user)
    }

    /** createUser: store `user` under "userId@domainId" unless a field is null
        or the key is taken. */
    method CreateUser(user: User) returns (r: Result<string>)
      modifies this
      ensures !Complete(user) ==>
                r == Err(Raise(serviceType, InvalidUserMessage, BadRequest)) && users == old(users)
      ensures Complete(user) && QualifiedId(user.userId.value, domainId) in old(users) ==>
                r == Err(Raise(serviceType, UserExistsMessage, Conflict)) && users == old(users)
      ensures Complete(user) && QualifiedId(user.userId.value, domainId) !in old(users) ==>
                r == Ok(QualifiedId(user.userId.value, domainId))
                && users == old(users)[r.value := user]
      ensures r.Ok? ==> GetUser(Some(r.value), user.password) == Ok(user)
    {
      if user.userId.None? || user.password.None? || user.fullName.None? || user.email.None? {
        return Err(Raise(serviceType, InvalidUserMessage, BadRequest));
      }
      var key := user.userId.value + "@" + domainId;
      if key in users {
        return Err(Raise(serviceType, UserExistsMessage, Conflict));
      }
      users := users[key := user];
      r := Ok(key);
    }

    /** updateUser: authenticate exactly as getUser does; on success replace the
        record by User(userId, fullName, email, password) of `user` (null fields
        included) and return the old record. */
    method UpdateUser(userId: Option<string>, password: Option<string>, user: User) returns (r: Result<User>)
      modifies this
      ensures r == old(GetUser(userId, password))
      ensures r.Err? ==> users == old(users)
      ensures r.Ok? ==> users == old(users)[userId.value := User(userId, user.fullName, user.email, user.password)]
      ensures r.Ok? && user.password.Some? ==>
                GetUser(userId, user.password) == Ok(User(userId, user.fullName, user.email, user.password))
    {
      if userId.None? || password.None? {
        return Err(Raise(serviceType, NullCredentialsMessage, BadRequest));
      }
      if userId.value !in users {
        return Err(Raise(serviceType, NoSuchUserMessage, NotFound));
      }
      var oldUser := users[userId.value];
      if oldUser.password.None? {
        return Err(NullPointer);
      }
      if oldUser.password.value != password.value {
        return Err(Raise(serviceType, WrongPasswordMessage, Forbidden));
      }
      users := users[userId.value := User(userId, user.fullName, user.email, user.password)];
      r := Ok(oldUser);
    }

    /** deleteUser: authenticate exactly as getUser does; on success remove the
        key and return the removed record. */
    method DeleteUser(userId: Option<string>, password: Option<string>) returns (r: Result<User>)
      modifies this
      ensures r == old(GetUser(userId, password))
      ensures r.Err? ==> users == old(users)
      ensures r.Ok? ==> users == old(users) - {userId.value}
      ensures r.Ok? ==> GetUser(userId, password) == Err(Raise(serviceType, NoSuchUserMessage, NotFound))
    {
      if userId.None? || password.None? {
        return Err(Raise(serviceType, NullCredentialsMessage, BadRequest));
      }
      if userId.value !in users {
        return Err(Raise(serviceType, NoSuchUserMessage, NotFound));
      }
      var user := users[userId.value];
      if user.password.None? {
        return Err(NullPointer);
      }
      if user.password.value != password.value {
        return Err(Raise(serviceType, WrongPasswordMessage, Forbidden));
      }
      users := users - {userId.value};
      r := Ok(user);
    }

    /** A stored user whose full name is null: the stream filter of
        searchUsers dereferences it. */
    ghost predicate SomeNameIsNull()
      reads this
    {
      exists k :: k in users && users[k].fullName.None?
    }

    /** searchUsers: the entries whose full name contains `pattern`
        (case-sensitive); all entries for a null or empty pattern. The list the
        source returns holds the values of this sub-map. */
    function SearchUsers(pattern: Option<string>): (r: Result<map<string, User>>)
      reads this
      ensures r.Ok? ==> r.value.Keys <= users.Keys && forall k :: k in r.value ==> r.value[k] == users[k]
      ensures (pattern.None? || pattern == Some("")) ==> r == Ok(users)
      ensures r.Err? <==> pattern.Some? && pattern.value != "" && SomeNameIsNull()
      ensures r.Err? ==> r.failure == NullPointer
      ensures r.Ok? && pattern.Some? && pattern.value != "" ==>
                forall k :: k in users ==>
                  (k in r.value <==> IsSubstring(pattern.value, users[k].fullName.value))
    {
      if users == map[] then Ok(map[])
      else if pattern.None? || pattern.value == "" then Ok(users)
      else if exists k :: k in users && users[k].fullName.None? then Err(NullPointer)
      else Ok(map k | k in users && Contains(users[k].fullName.value, pattern.value) :: users[k])
    }
  }

  /** A longer pattern never finds more users: if `p` occurs in `q`, every user
      whose name contains `q` also contains `p`. */
  lemma {:induction false} SearchNarrows(res: UsersResource, p: string, q: string)
    requires IsSubstring(p, q)
    requires res.SearchUsers(Some(p)).Ok? && res.SearchUsers(Some(q)).Ok?
    ensures res.SearchUsers(Some(q)).value.Keys <= res.SearchUsers(Some(p)).value.Keys
  {
    var rp := res.SearchUsers(Some(p)).value;
    var rq := res.SearchUsers(Some(q)).value;
    if p != "" && q != "" {
      forall k | k in rq
        ensures k in rp
      {
        SubstringTransitive(p, q, res.users[k].fullName.value);
      }
    }
  }

  /** Substring containment is transitive. */
  lemma SubstringTransitive(p: string, q: string, s: string)
    requires IsSubstring(p, q) && IsSubstring(q, s)
    ensures IsSubstring(p, s)
  {
    var i :| OccursAt(p, q, i);
    var j :| OccursAt(q, s, j);
    assert s[j..j + |q|] == q;
    forall t | 0 <= t < |p|
      ensures s[j + i + t] == p[t]
    {
      assert s[j..j + |q|][i + t] == q[i + t];
      assert q[i..i + |p|][t] == p[t];
    }
    assert s[j + i..j + i + |p|] == p;
    assert OccursAt(p, s, j + i);
  }
}
