/** The bounded retry loop of the SOAP clients (the private `retry` of
    SpreadsheetSoapClient and of UsersSoapClient, which are identical). One
    invocation of the remote call is one attempt; the outcomes the remote side
    would give, in order, are a parameter. */
module SoapRetry {
  import opened Common

  /** MAX_RETRIES. */
  const MaxRetries: nat := 3

  /** What one call of the supplier ends with. A message may be null. */
  datatype Attempt<T> =
    | Returned(value: T)                      // supplier.get() returned
    | AppFault(message: Option<string>)       // it threw a SoapException
    | OtherFault(message: Option<string>) // it threw any other exception

  /** What retry ends with: a value, or a SoapException carrying a message. */
  datatype Outcome<T> = Success(value: T) | Raised(message: Option<string>)

  /** The outcome one attempt gives when it is the last one made. */
  function Settle<T>(a: Attempt<T>): (o: Outcome<T>)
    ensures a.Returned? <==> o.Success?
    ensures a.Returned? ==> o == Success(a.value)
    ensures !a.Returned? ==> o == Raised(a.message)
  {
    match a
    case Returned(v) => Success(v)
    case AppFault(m) => Raised(m)
    case OtherFault(m) => Raised(m)
  }

  /** The number of attempts made from attempt `from` on: up to and including
      the first one that returns or throws a SoapException, and no further than
      MaxRetries in all. */
  function CountFrom<T>(attempts: seq<Attempt<T>>, from: nat): (n: nat)
    requires from < MaxRetries <= |attempts|
    ensures from < n <= MaxRetries
    ensures forall i :: from <= i < n - 1 ==> attempts[i].OtherFault?
    ensures n < MaxRetries ==> !attempts[n - 1].OtherFault?
    decreases MaxRetries - from
  {
    if !attempts[from].OtherFault? || from + 1 == MaxRetries then from + 1
    else CountFrom(attempts, from + 1)
  }

  /** The number of attempts retry makes. */
  function AttemptCount<T>(attempts: seq<Attempt<T>>): nat
    requires MaxRetries <= |attempts|
  {
    CountFrom(attempts, 0)
  }

  /** The attempt retry stops at. */
  function LastAttempt<T>(attempts: seq<Attempt<T>>): Attempt<T>
    requires MaxRetries <= |attempts|
  {
    attempts[AttemptCount(attempts) - 1]
  }

  /** What retry returns or raises. */
  function RetryOutcome<T>(attempts: seq<Attempt<T>>): Outcome<T>
    requires MaxRetries <= |attempts|
  {
    Settle(LastAttempt(attempts))
  }

  /** The RETRY_PERIOD pauses retry sleeps: one after every attempt that was
      a non-SOAP failure. */
  function PauseCount<T>(attempts: seq<Attempt<T>>): nat
    requires MaxRetries <= |attempts|
  {
    if LastAttempt(attempts).OtherFault? then AttemptCount(attempts) else AttemptCount(attempts) - 1
  }

  /** retry(supplier), where `attempts[i]` is what the (i+1)-th call of the
      supplier ends with and every call sends `request`. `made` counts the
      calls, `sent` lists the requests they sent and `pauses` counts the sleeps. */
  method Retry<Q, T>(request: Q, attempts: seq<Attempt<T>>)
    returns (r: Outcome<T>, made: nat, pauses: nat, sent: seq<Q>)
    requires MaxRetries <= |attempts|
    ensures made == AttemptCount(attempts) && pauses == PauseCount(attempts)
    ensures r == RetryOutcome(attempts)
    ensures |sent| == made && forall i :: 0 <= i < |sent| ==> sent[i] == request
  {
    var exception: Option<string> := None;
    var retries := 0;
    pauses := 0;
    sent := [];
    var stopped := false;
    while !stopped && retries < MaxRetries
      invariant 0 <= retries <= MaxRetries
      invariant |sent| == retries && forall i :: 0 <= i < |sent| ==> sent[i] == request
      invariant forall i :: 0 <= i < retries - 1 ==> attempts[i].OtherFault?
      invariant !stopped ==> pauses == retries
      invariant !stopped && retries > 0 ==>
                  attempts[retries - 1].OtherFault? && exception == attempts[retries - 1].message
      invariant stopped ==> retries > 0 && attempts[retries - 1].AppFault?
                            && exception == attempts[retries - 1].message && pauses == retries - 1
      decreases MaxRetries - retries, if stopped then 0 else 1
    {
      retries := retries + 1;
      sent := sent + [request];
      match attempts[retries - 1]
      case Returned(v) =>
        RetryCharacterized(attempts, retries - 1);
        return Success(v), retries, pauses, sent;
      case AppFault(m) =>
        exception := m;
        stopped := true;
      case OtherFault(m) =>
        exception := m;
        pauses := pauses + 1;
    }
    RetryCharacterized(attempts, retries - 1);
    r := Raised(exception);
    made := retries;
  }

  /** Stopping at attempt `k` after `k` non-SOAP failures, or at the last
      permitted attempt, is what AttemptCount describes. */
  lemma RetryCharacterized<T>(attempts: seq<Attempt<T>>, k: nat)
    requires k < MaxRetries <= |attempts|
    requires forall i :: 0 <= i < k ==> attempts[i].OtherFault?
    requires !attempts[k].OtherFault? || k == MaxRetries - 1
    ensures AttemptCount(attempts) == k + 1
  {
  }

  /** The first attempt that returns ends retry with its value, after one
      pause per non-SOAP failure before it. */
  lemma {:induction false} FirstReturnWins<T>(attempts: seq<Attempt<T>>, k: nat)
    requires k < MaxRetries <= |attempts|
    requires forall i :: 0 <= i < k ==> attempts[i].OtherFault?
    requires attempts[k].Returned?
    ensures AttemptCount(attempts) == k + 1 && PauseCount(attempts) == k
    ensures RetryOutcome(attempts) == Success(attempts[k].value)
  {
    RetryCharacterized(attempts, k);
  }

  /** A SoapException stops retry at once: no further attempt, no pause after
      it, and its message is raised. */
  lemma {:induction false} AppFaultStops<T>(attempts: seq<Attempt<T>>, k: nat)
    requires k < MaxRetries <= |attempts|
    requires forall i :: 0 <= i < k ==> attempts[i].OtherFault?
    requires attempts[k].AppFault?
    ensures AttemptCount(attempts) == k + 1 && PauseCount(attempts) == k
    ensures RetryOutcome(attempts) == Raised(attempts[k].message)
  {
    RetryCharacterized(attempts, k);
  }

  /** Three non-SOAP failures exhaust retry: it raises the last one's
      message, after a pause following each of the three. */
  lemma {:induction false} ExhaustedRaisesLast<T>(attempts: seq<Attempt<T>>)
    requires MaxRetries <= |attempts|
    requires forall i :: 0 <= i < MaxRetries ==> attempts[i].OtherFault?
    ensures AttemptCount(attempts) == MaxRetries && PauseCount(attempts) == MaxRetries
    ensures RetryOutcome(attempts) == Raised(attempts[MaxRetries - 1].message)
  {
    RetryCharacterized(attempts, MaxRetries - 1);
  }

  /** Only the first MaxRetries outcomes matter. */
  lemma {:induction false} OnlyFirstAttemptsMatter<T>(a: seq<Attempt<T>>, b: seq<Attempt<T>>)
    requires MaxRetries <= |a| && MaxRetries <= |b| && a[..MaxRetries] == b[..MaxRetries]
    ensures AttemptCount(a) == AttemptCount(b) && RetryOutcome(a) == RetryOutcome(b)
            && PauseCount(a) == PauseCount(b)
  {
    var k := AttemptCount(a) - 1;
    assert forall i :: 0 <= i < MaxRetries ==> a[i] == a[..MaxRetries][i] == b[i];
    RetryCharacterized(b, k);
  }
}
