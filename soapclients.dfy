/** The SOAP clients of the two services: every operation is one remote call
    wrapped in retry; verifyUser turns an unknown user into `false`. */
module SoapClients {
  import opened Common
  import opened Users
  import opened Spreadsheets
  import opened SoapRetry
  import opened ClientFactory

  /** A remote call of SoapSpreadsheets with its arguments. */
  datatype SheetsRequest =
    | CreateSpreadsheetCall(sheet: Option<SheetData>, password: Option<string>)
    | DeleteSpreadsheetCall(sheetId: Option<string>, password: Option<string>)
    | GetSpreadsheetCall(sheetId: Option<string>, userId: Option<string>, password: Option<string>)
    | GetSpreadsheetValuesCall(sheetId: Option<string>, userId: Option<string>, password: Option<string>)
    | GetReferencedSpreadsheetValuesCall(sheetId: Option<string>, userId: Option<string>, range: Option<string>)
    | UpdateCellCall(sheetId: Option<string>, cell: Option<string>, rawValue: Option<string>,
                     userId: Option<string>, password: Option<string>)
    | ShareSpreadsheetCall(sheetId: Option<string>, userId: Option<string>, password: Option<string>)
    | UnshareSpreadsheetCall(sheetId: Option<string>, userId: Option<string>, password: Option<string>)

  /** A remote call of SoapUsers with its arguments. */
  datatype UsersRequest =
    | CreateUserCall(user: User)
    | GetUserCall(userId: Option<string>, password: Option<string>)
    | UpdateUserCall(userId: Option<string>, password: Option<string>, user: User)
    | DeleteUserCall(userId: Option<string>, password: Option<string>)
    | SearchUsersCall(pattern: Option<string>)

  /** `n` copies of `x`. */
  function Repeat<Q>(x: Q, n: nat): (s: seq<Q>)
    ensures |s| == n && forall i :: 0 <= i < n ==> s[i] == x
  {
    seq(n, _ => x)
  }

  /** `retry(() -> target.op(args))`: each attempt is one call of the target
      with the same request; `sent` lists the calls the loop made. */
  method Delegate<Q, T>(request: Q, attempts: seq<Attempt<T>>)
    returns (r: Outcome<T>, made: nat, pauses: nat, sent: seq<Q>)
    requires MaxRetries <= |attempts|
    ensures r == RetryOutcome(attempts) && made == AttemptCount(attempts) && pauses == PauseCount(attempts)
    ensures 1 <= made <= MaxRetries && sent == Repeat(request, made)
  {
    r, made, pauses, sent := Retry(request, attempts);
  }

  /** What a call that reached the server ends with on the client: the
      returned value, the SoapException the resource raised, or, for any other
      exception on the server side, a SOAP fault that is not a SoapException
      and carries `faultString`, the message of that exception. */
  function Deliver<T>(answer: Result<T>, faultString: Option<string>): (a: Attempt<T>)
    ensures answer.Ok? <==> a.Returned?
    ensures answer.Ok? ==> a == Returned(answer.value)
    ensures answer.Err? && answer.failure.SoapFault? ==> a == AppFault(Some(answer.failure.message))
    ensures answer.Err? && !answer.failure.SoapFault? ==> a == OtherFault(faultString)
  {
    match answer
    case Ok(v) => Returned(v)
    case Err(f) => if f.SoapFault? then AppFault(Some(f.message)) else OtherFault(faultString)
  }

  class SpreadsheetSoapClient {
    const serverUrl: string

    constructor (serverUrl: string)
      ensures this.serverUrl == serverUrl
    {
      this.serverUrl := serverUrl;
    }

    method CreateSpreadsheet(sheet: Option<SheetData>, password: Option<string>, attempts: seq<Attempt<string>>)
      returns (r: Outcome<string>, made: nat, pauses: nat, sent: seq<SheetsRequest>)
      requires MaxRetries <= |attempts|
      ensures r == RetryOutcome(attempts) && made == AttemptCount(attempts) && pauses == PauseCount(attempts)
      ensures sent == Repeat(CreateSpreadsheetCall(sheet, password), made)
    {
      r, made, pauses, sent := Delegate(CreateSpreadsheetCall(sheet, password), attempts);
    }

    method DeleteSpreadsheet(sheetId: Option<string>, password: Option<string>, attempts: seq<Attempt<()>>)
      returns (r: Outcome<()>, made: nat, pauses: nat, sent: seq<SheetsRequest>)
      requires MaxRetries <= |attempts|
      ensures r == RetryOutcome(attempts) && made == AttemptCount(attempts) && pauses == PauseCount(attempts)
      ensures sent == Repeat(DeleteSpreadsheetCall(sheetId, password), made)
    {
      r, made, pauses, sent := Delegate(DeleteSpreadsheetCall(sheetId, password), attempts);
    }

    method GetSpreadsheet(sheetId: Option<string>, userId: Option<string>, password: Option<string>,
                          attempts: seq<Attempt<SheetData>>)
      returns (r: Outcome<SheetData>, made: nat, pauses: nat, sent: seq<SheetsRequest>)
      requires MaxRetries <= |attempts|
      ensures r == RetryOutcome(attempts) && made == AttemptCount(attempts) && pauses == PauseCount(attempts)
      ensures sent == Repeat(GetSpreadsheetCall(sheetId, userId, password), made)
    {
      r, made, pauses, sent := Delegate(GetSpreadsheetCall(sheetId, userId, password), attempts);
    }

    method GetSpreadsheetValues(sheetId: Option<string>, userId: Option<string>, password: Option<string>,
                                attempts: seq<Attempt<Matrix>>)
      returns (r: Outcome<Matrix>, made: nat, pauses: nat, sent: seq<SheetsRequest>)
      requires MaxRetries <= |attempts|
      ensures r == RetryOutcome(attempts) && made == AttemptCount(attempts) && pauses == PauseCount(attempts)
      ensures sent == Repeat(GetSpreadsheetValuesCall(sheetId, userId, password), made)
    {
      r, made, pauses, sent := Delegate(GetSpreadsheetValuesCall(sheetId, userId, password), attempts);
    }

    method GetReferencedSpreadsheetValues(sheetId: Option<string>, userId: Option<string>, range: Option<string>,
                                          attempts: seq<Attempt<Matrix>>)
      returns (r: Outcome<Matrix>, made: nat, pauses: nat, sent: seq<SheetsRequest>)
      requires MaxRetries <= |attempts|
      ensures r == RetryOutcome(attempts) && made == AttemptCount(attempts) && pauses == PauseCount(attempts)
      ensures sent == Repeat(GetReferencedSpreadsheetValuesCall(sheetId, userId, range), made)
    {
      r, made, pauses, sent := Delegate(GetReferencedSpreadsheetValuesCall(sheetId, userId, range), attempts);
    }

    method UpdateCell(sheetId: Option<string>, cell: Option<string>, rawValue: Option<string>,
                      userId: Option<string>, password: Option<string>, attempts: seq<Attempt<()>>)
      returns (r: Outcome<()>, made: nat, pauses: nat, sent: seq<SheetsRequest>)
      requires MaxRetries <= |attempts|
      ensures r == RetryOutcome(attempts) && made == AttemptCount(attempts) && pauses == PauseCount(attempts)
      ensures sent == Repeat(UpdateCellCall(sheetId, cell, rawValue, userId, password), made)
    {
      r, made, pauses, sent := Delegate(UpdateCellCall(sheetId, cell, rawValue, userId, password), attempts);
    }

    method ShareSpreadsheet(sheetId: Option<string>, userId: Option<string>, password: Option<string>,
                            attempts: seq<Attempt<()>>)
      returns (r: Outcome<()>, made: nat, pauses: nat, sent: seq<SheetsRequest>)
      requires MaxRetries <= |attempts|
      ensures r == RetryOutcome(attempts) && made == AttemptCount(attempts) && pauses == PauseCount(attempts)
      ensures sent == Repeat(ShareSpreadsheetCall(sheetId, userId, password), made)
    {
      r, made, pauses, sent := Delegate(ShareSpreadsheetCall(sheetId, userId, password), attempts);
    }

    method UnshareSpreadsheet(sheetId: Option<string>, userId: Option<string>, password: Option<string>,
                              attempts: seq<Attempt<()>>)
      returns (r: Outcome<()>, made: nat, pauses: nat, sent: seq<SheetsRequest>)
      requires MaxRetries <= |attempts|
      ensures r == RetryOutcome(attempts) && made == AttemptCount(attempts) && pauses == PauseCount(attempts)
      ensures sent == Repeat(UnshareSpreadsheetCall(sheetId, userId, password), made)
    {
      r, made, pauses, sent := Delegate(UnshareSpreadsheetCall(sheetId, userId, password), attempts);
    }
  }

  /** The lambda verifyUser hands to retry, applied to what target.getUser
      ended with: a message containing "not exist" becomes `false`; a null
      message makes `contains` throw NullPointerException, which is not a
      SoapException; any other failure is rethrown as it was. */
  function ClassifyGetUser(a: Attempt<User>): (c: Attempt<bool>)
    ensures a.Returned? ==> c == Returned(true)
    ensures !a.Returned? && a.message.Some? && IsSubstring("not exist", a.message.value) ==> c == Returned(false)
    ensures !a.Returned? && a.message.None? ==> c == OtherFault(None)
    ensures !a.Returned? && a.message.Some? && !IsSubstring("not exist", a.message.value) ==>
              c == (if a.AppFault? then AppFault(a.message) else OtherFault(a.message))
  {
    match a
    case Returned(_) => Returned(true)
    case AppFault(m) =>
      if m.None? then OtherFault(None)
      else if Contains(m.value, "not exist") then Returned(false)
      else AppFault(m)
    case OtherFault(m) =>
      if m.None? then OtherFault(None)
      else if Contains(m.value, "not exist") then Returned(false)
      else OtherFault(m)
  }

  /** Every attempt classified as verifyUser's lambda does. */
  function ClassifyAll(attempts: seq<Attempt<User>>): (cs: seq<Attempt<bool>>)
    ensures |cs| == |attempts| && forall i :: 0 <= i < |attempts| ==> cs[i] == ClassifyGetUser(attempts[i])
  {
    seq(|attempts|, i requires 0 <= i < |attempts| => ClassifyGetUser(attempts[i]))
  }

  class UsersSoapClient {
    const serverUrl: string

    constructor (serverUrl: string)
      ensures this.serverUrl == serverUrl
    {
      this.serverUrl := serverUrl;
    }

    method CreateUser(user: User, attempts: seq<Attempt<string>>)
      returns (r: Outcome<string>, made: nat, pauses: nat, sent: seq<UsersRequest>)
      requires MaxRetries <= |attempts|
      ensures r == RetryOutcome(attempts) && made == AttemptCount(attempts) && pauses == PauseCount(attempts)
      ensures sent == Repeat(CreateUserCall(user), made)
    {
      r, made, pauses, sent := Delegate(CreateUserCall(user), attempts);
    }

    /** verifyUser: `attempts` are what the successive target.getUser calls end with. */
    method VerifyUser(userId: Option<string>, password: Option<string>, attempts: seq<Attempt<User>>)
      returns (r: Outcome<bool>, made: nat, pauses: nat, sent: seq<UsersRequest>)
      requires MaxRetries <= |attempts|
      ensures r == RetryOutcome(ClassifyAll(attempts)) && made == AttemptCount(ClassifyAll(attempts))
      ensures pauses == PauseCount(ClassifyAll(attempts))
      ensures sent == Repeat(GetUserCall(userId, password), made)
    {
      r, made, pauses, sent := Delegate(GetUserCall(userId, password), ClassifyAll(attempts));
    }

    method GetUser(userId: Option<string>, password: Option<string>, attempts: seq<Attempt<User>>)
      returns (r: Outcome<User>, made: nat, pauses: nat, sent: seq<UsersRequest>)
      requires MaxRetries <= |attempts|
      ensures r == RetryOutcome(attempts) && made == AttemptCount(attempts) && pauses == PauseCount(attempts)
      ensures sent == Repeat(GetUserCall(userId, password), made)
    {
      r, made, pauses, sent := Delegate(GetUserCall(userId, password), attempts);
    }

    method UpdateUser(userId: Option<string>, password: Option<string>, user: User, attempts: seq<Attempt<User>>)
      returns (r: Outcome<User>, made: nat, pauses: nat, sent: seq<UsersRequest>)
      requires MaxRetries <= |attempts|
      ensures r == RetryOutcome(attempts) && made == AttemptCount(attempts) && pauses == PauseCount(attempts)
      ensures sent == Repeat(UpdateUserCall(userId, password, user), made)
    {
      r, made, pauses, sent := Delegate(UpdateUserCall(userId, password, user), attempts);
    }

    method DeleteUser(userId: Option<string>, password: Option<string>, attempts: seq<Attempt<User>>)
      returns (r: Outcome<User>, made: nat, pauses: nat, sent: seq<UsersRequest>)
      requires MaxRetries <= |attempts|
      ensures r == RetryOutcome(attempts) && made == AttemptCount(attempts) && pauses == PauseCount(attempts)
      ensures sent == Repeat(DeleteUserCall(userId, password), made)
    {
      r, made, pauses, sent := Delegate(DeleteUserCall(userId, password), attempts);
    }

    method SearchUsers(pattern: Option<string>, attempts: seq<Attempt<seq<User>>>)
      returns (r: Outcome<seq<User>>, made: nat, pauses: nat, sent: seq<UsersRequest>)
      requires MaxRetries <= |attempts|
      ensures r == RetryOutcome(attempts) && made == AttemptCount(attempts) && pauses == PauseCount(attempts)
      ensures sent == Repeat(SearchUsersCall(pattern), made)
    {
      r, made, pauses, sent := Delegate(SearchUsersCall(pattern), attempts);
    }
  }

  /** verifyUser answers true as soon as getUser returns. */
  lemma {:induction false} VerifyTrueOnReturn(attempts: seq<Attempt<User>>, k: nat)
    requires k < MaxRetries <= |attempts|
    requires forall i :: 0 <= i < k ==> ClassifyGetUser(attempts[i]).OtherFault?
    requires attempts[k].Returned?
    ensures RetryOutcome(ClassifyAll(attempts)) == Success(true) && AttemptCount(ClassifyAll(attempts)) == k + 1
  {
    FirstReturnWins(ClassifyAll(attempts), k);
  }

  /** verifyUser answers false, with no further attempt, on a failure whose
      message contains "not exist". */
  lemma {:induction false} VerifyFalseOnNotExist(attempts: seq<Attempt<User>>, k: nat)
    requires k < MaxRetries <= |attempts|
    requires forall i :: 0 <= i < k ==> ClassifyGetUser(attempts[i]).OtherFault?
    requires !attempts[k].Returned? && attempts[k].message.Some? && IsSubstring("not exist", attempts[k].message.value)
    ensures RetryOutcome(ClassifyAll(attempts)) == Success(false) && AttemptCount(ClassifyAll(attempts)) == k + 1
  {
    FirstReturnWins(ClassifyAll(attempts), k);
  }

  /** Any other SoapException from getUser is raised by verifyUser at once. */
  lemma {:induction false} VerifyRaisesOtherSoapFault(attempts: seq<Attempt<User>>, k: nat, m: string)
    requires k < MaxRetries <= |attempts|
    requires forall i :: 0 <= i < k ==> ClassifyGetUser(attempts[i]).OtherFault?
    requires attempts[k] == AppFault(Some(m)) && !IsSubstring("not exist", m)
    ensures RetryOutcome(ClassifyAll(attempts)) == Raised(Some(m)) && AttemptCount(ClassifyAll(attempts)) == k + 1
    ensures PauseCount(ClassifyAll(attempts)) == k
  {
    AppFaultStops(ClassifyAll(attempts), k);
  }

  /** "User does not exist." contains "not exist". */
  lemma NoSuchUserIsNotExist()
    ensures IsSubstring("not exist", NoSuchUserMessage)
  {
    assert NoSuchUserMessage[10..19] == "not exist";
    assert OccursAt("not exist", NoSuchUserMessage, 10);
  }

  /** "Password is incorrect." does not: it has no 'x'. */
  lemma WrongPasswordIsNotNotExist()
    ensures !IsSubstring("not exist", WrongPasswordMessage)
  {
    var s := WrongPasswordMessage;
    assert 'x' !in s;
    forall i | 0 <= i <= |s| - 9
      ensures !OccursAt("not exist", s, i)
    {
      assert s[i..i + 9][5] == s[i + 5] != 'x';
    }
  }

  /** Against a SOAP Users resource that a live first attempt reaches,
      verifyUser answers false for an unknown user, true for the right
      password and raises "Password is incorrect." for a wrong one, each with
      one attempt. */
  lemma {:induction false} VerifyAgainstUsersResource(users: UsersResource, userId: string, password: string,
                                                      attempts: seq<Attempt<User>>, faultString: Option<string>)
    requires users.serviceType == Soap && MaxRetries <= |attempts|
    requires attempts[0] == Deliver(users.GetUser(Some(userId), Some(password)), faultString)
    ensures userId !in users.users ==> RetryOutcome(ClassifyAll(attempts)) == Success(false)
    ensures userId in users.users && users.users[userId].password == Some(password) ==>
              RetryOutcome(ClassifyAll(attempts)) == Success(true)
    ensures userId in users.users && users.users[userId].password.Some?
            && users.users[userId].password != Some(password) ==>
              RetryOutcome(ClassifyAll(attempts)) == Raised(Some(WrongPasswordMessage))
              && AttemptCount(ClassifyAll(attempts)) == 1
  {
    var got := users.GetUser(Some(userId), Some(password));
    if userId !in users.users {
      NoSuchUserIsNotExist();
      VerifyFalseOnNotExist(attempts, 0);
    } else if users.users[userId].password == Some(password) {
      VerifyTrueOnReturn(attempts, 0);
    } else if users.users[userId].password.Some? {
      WrongPasswordIsNotNotExist();
      VerifyRaisesOtherSoapFault(attempts, 0, WrongPasswordMessage);
    }
  }

  /** How SpreadsheetResource sees a verifyUser outcome. */
  function AsVerifyOutcome(o: Outcome<bool>): (v: VerifyOutcome)
    ensures o.Success? <==> v.Verified?
    ensures o.Success? ==> v == Verified(o.value)
  {
    match o
    case Success(b) => Verified(b)
    case Raised(_) => VerifyThrew
  }

  /** A spreadsheet resource whose users client is a SOAP client, and whose
      Users resource answers every attempt of verifyUser alike, passes the
      owner's credential check exactly when the owner exists and the password
      is the stored one. */
  lemma {:induction false} SoapOwnerCheck(users: UsersResource, client: ApiClient,
                                          verifier: (ApiClient, string, string) -> VerifyOutcome,
                                          owner: string, password: string,
                                          attempts: seq<Attempt<User>>, faultString: Option<string>)
    requires users.serviceType == Soap && MaxRetries <= |attempts|
    requires forall i :: 0 <= i < |attempts| ==>
               attempts[i] == Deliver(users.GetUser(Some(owner), Some(password)), faultString)
    requires verifier(client, owner, password) == AsVerifyOutcome(RetryOutcome(ClassifyAll(attempts)))
    ensures CheckOwner(Some(client), verifier, owner, password) == Verified(true) <==>
              owner in users.users && users.users[owner].password == Some(password)
  {
    var cs := ClassifyAll(attempts);
    if owner !in users.users {
      NoSuchUserIsNotExist();
      VerifyFalseOnNotExist(attempts, 0);
    } else if users.users[owner].password == Some(password) {
      VerifyTrueOnReturn(attempts, 0);
    } else if users.users[owner].password.Some? {
      WrongPasswordIsNotNotExist();
      VerifyRaisesOtherSoapFault(attempts, 0, WrongPasswordMessage);
    } else {
      // a stored null password: every attempt is the same non-SOAP fault
      var c := ClassifyGetUser(OtherFault(faultString));
      assert forall i :: 0 <= i < |cs| ==> cs[i] == c;
      if c.Returned? {
        FirstReturnWins(cs, 0);
      } else {
        ExhaustedRaisesLast(cs);
      }
    }
  }

  /** The same over REST: the owner's credential check passes exactly when
      the owner exists and the password is the stored one. */
  lemma RestOwnerCheck(users: UsersResource, client: ApiClient,
                       verifier: (ApiClient, string, string) -> VerifyOutcome, owner: string, password: string)
    requires users.serviceType == Rest
    requires verifier(client, owner, password) == RestVerifyUser(HttpStatus(users.GetUser(Some(owner), Some(password))), true)
    ensures CheckOwner(Some(client), verifier, owner, password) == Verified(true) <==>
              owner in users.users && users.users[owner].password == Some(password)
  {
    RestVerifyAgainstUsersResource(users, owner, password);
  }

  /** UsersRestClient.verifyUser on the HTTP reply: 200 with an entity is
      true, 403 is false, any other reply throws. */
  function RestVerifyUser(status: int, hasEntity: bool): (v: VerifyOutcome)
    ensures v == Verified(true) <==> status == 200 && hasEntity
    ensures v == Verified(false) <==> status == 403
    ensures v == VerifyThrew <==> !(status == 200 && hasEntity) && status != 403
  {
    if status == 200 && hasEntity then Verified(true)
    else if status == 403 then Verified(false)
    else VerifyThrew
  }

  /** The HTTP status a REST Users resource replies to getUser with. */
  function HttpStatus(answer: Result<User>): (code: int)
    ensures answer.Ok? <==> code == 200
  {
    match answer
    case Ok(_) => 200
    case Err(WebAppFault(BadRequest)) => 400
    case Err(WebAppFault(Forbidden)) => 403
    case Err(WebAppFault(NotFound)) => 404
    case Err(WebAppFault(Conflict)) => 409
    case Err(_) => 500
  }

  /** Over REST an unknown user makes verifyUser throw (404), where the SOAP
      client answers false; a wrong password gives false over REST, where the
      SOAP client raises "Password is incorrect.". Either way the spreadsheet
      resource refuses the request. */
  lemma RestVerifyAgainstUsersResource(users: UsersResource, userId: string, password: string)
    requires users.serviceType == Rest
    ensures userId !in users.users ==>
              RestVerifyUser(HttpStatus(users.GetUser(Some(userId), Some(password))), true) == VerifyThrew
    ensures userId in users.users && users.users[userId].password.Some?
            && users.users[userId].password != Some(password) ==>
              RestVerifyUser(HttpStatus(users.GetUser(Some(userId), Some(password))), true) == Verified(false)
    ensures RestVerifyUser(HttpStatus(users.GetUser(Some(userId), Some(password))), true) == Verified(true) <==>
              userId in users.users && users.users[userId].password == Some(password)
  {
  }
}
