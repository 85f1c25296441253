/** Shared vocabulary of the resources and clients: nullable values, the
    exceptions a call can end with, the binding a resource is deployed with,
    and Java's String.contains. */
module Common {

  /** A Java reference that may be null. */
  datatype Option<T> = None | Some(value: T)

  /** tp1.server.WebServiceType: the binding a resource instance serves. */
  datatype ServiceType = Rest | Soap

  /** The HTTP statuses the resources raise. */
  datatype Status = BadRequest | Forbidden | NotFound | Conflict

  /** The exception a call ends with. */
  datatype Failure =
    | WebAppFault(status: Status)    // jakarta.ws.rs.WebApplicationException(status)
    | SoapFault(message: string)     // tp1.api.service.soap.SoapException(message)
    | NullPointer                    // a NullPointerException from dereferencing null
    | Unchecked                      // a runtime exception of code that is not part of this model

  datatype Result<T> = Ok(value: T) | Err(failure: Failure)

  /** The outcome of a credential check `verifyUser(userId, password)`:
      the Boolean it returns, or an exception it (or a missing client) raised. */
  datatype VerifyOutcome = Verified(valid: bool) | VerifyThrew

  /** ExceptionMapper.throwWebAppException: a SOAP resource raises a
      SoapException carrying the message, a REST resource a
      WebApplicationException carrying the status. */
  function Raise(serviceType: ServiceType, message: string, status: Status): (f: Failure)
    ensures f.SoapFault? <==> serviceType.Soap?
    ensures f.WebAppFault? <==> serviceType.Rest?
    ensures serviceType.Soap? ==> f.message == message
    ensures serviceType.Rest? ==> f.status == status
  {
    if serviceType == Soap then SoapFault(message) else WebAppFault(status)
  }

  /** `p` occurs in `s` starting at position `i`. */
  ghost predicate OccursAt(p: string, s: string, i: int)
  {
    0 <= i <= |s| - |p| && s[i..i + |p|] == p
  }

  /** `p` occurs in `s` as a contiguous block. */
  ghost predicate IsSubstring(p: string, s: string)
  {
    exists i :: OccursAt(p, s, i)
  }

  /** Java's `s.contains(p)`, by scanning the start positions of `s` in order. */
  function Contains(s: string, p: string): (b: bool)
    ensures b <==> IsSubstring(p, s)
    decreases |s|
  {
    if |p| > |s| then false
    else if s[..|p|] == p then
      assert OccursAt(p, s, 0);
      true
    else
      SubstringShift(p, s);
      Contains(s[1..], p)
  }

  /** When `p` does not start `s`, it occurs in `s` exactly when it occurs in `s[1..]`. */
  lemma SubstringShift(p: string, s: string)
    requires |p| <= |s| && s[..|p|] != p
    ensures IsSubstring(p, s) <==> IsSubstring(p, s[1..])
  {
    if IsSubstring(p, s) {
      var i :| OccursAt(p, s, i);
      assert i != 0 by { assert s[0..0 + |p|] == s[..|p|]; }
      assert s[1..][i - 1..i - 1 + |p|] == s[i..i + |p|];
      assert OccursAt(p, s[1..], i - 1);
    }
    if IsSubstring(p, s[1..]) {
      var j :| OccursAt(p, s[1..], j);
      assert s[j + 1..j + 1 + |p|] == s[1..][j..j + |p|];
      assert OccursAt(p, s, j + 1);
    }
  }
}
