# Users, Spreadsheets and Discovery services of sd2021-tp1, in Dafny

This project models the stateful core of a distributed spreadsheet system. Each
domain runs a Users service and a Spreadsheets service, over REST or SOAP. The
services find each other through multicast announcements. The model covers:

- `Users` (`users.dfy`): the Users resource. It holds an in-memory map from the
  qualified id `userId@domain` to a user record, with create, get, update,
  delete and search, and their exact error outcomes.
- `Spreadsheets` (`spreadsheets.dfy`): the Spreadsheets resource. It covers:
  - the map from sheet id to sheet, where a fresh id is drawn in a loop;
  - the read-permission rule;
  - cell updates;
  - the `sharedWith` set, changed in place by share and unshare;
  - the cached users client.
- `ServiceDiscovery` (`discovery.dfy`): the registry of announced endpoints.
  It covers:
  - the announcement text `domain:service<TAB>uri`;
  - decoding with Java's `String.split`, which drops trailing empty fields;
  - one step of the collector loop, as one state transition;
  - the lookup `knownUrisOf`.
- `ClientFactory` (`clientfactory.dfy`): the client for a discovered URL.
  REST is used exactly when the URL contains `/rest`. It also covers the
  per-domain cache of remote spreadsheet clients.
- `SoapRetry` (`retry.dfy`): the bounded retry loop of both SOAP clients.
  - It makes at most 3 attempts.
  - A `SoapException` stops it at once.
  - Any other failure is retried, with a pause after each one.
  - When the attempts run out, the last failure is raised.
- `SoapClients` (`soapclients.dfy`): every SOAP client operation as one remote
  call inside the retry loop. It also covers `verifyUser`, which maps a
  failure whose message contains "not exist" to `false`, and the REST
  `verifyUser` reply mapping.
- `Common` (`common.dfy`): nullable values (`Option`) and failures. A failure
  is a `WebApplicationException` status, a `SoapException` message, a
  `NullPointerException`, or an exception of code outside the model. This
  module also holds `ExceptionMapper` and Java's `String.contains`.

An operation is atomic in the model; the `synchronized` blocks are not modelled.
Code that is not part of the repository's core becomes a function parameter:
- `verifyUser` of the users client that getLocalUsersClient returns, as
  `verifier` (the operations call getLocalUsersClient themselves);
- the formula engine, as `engine`;
- cell-id parsing, as `parseCellId`;
- range extraction, as `extractRange`;
- `User.extractDomain`, as `domainOf`;
- `URI.create`, as `isUri`;
- which URLs a client constructor accepts, as `constructs`.

The outcomes of remote calls are passed in as a sequence of attempts, and the
UUID draws as a sequence of candidate ids. A Java `null` is `None`.

Some behaviour of the code is easy to miss:

- `getSpreadsheet` admits only users listed in `sharedWith` who are also in
  the owner's domain; the owner is not admitted otherwise
  (`Spreadsheets.OwnerMustBeShared`).
- `getSpreadsheet` checks the password against the sheet's owner, not against
  the requester.
- A `false` answer from `verifyUser` throws inside a `try`. The `catch` block
  re-raises it with another status:
  - createSpreadsheet reports BAD_REQUEST "User not found.";
  - deleteSpreadsheet reports BAD_REQUEST;
  - getSpreadsheet reports NOT_FOUND.
- createSpreadsheet, deleteSpreadsheet, getSpreadsheet and, through
  getSpreadsheet, getSpreadsheetValues and updateCell call getLocalUsersClient
  when they reach the credential check. The first such call that finds a
  Users endpoint fills `cachedUserClient`.
- `getReferencedSpreadsheetValues` checks only `sharedWith`. It checks neither
  the domain nor a password.
- In the collector loop, an endpoint that `URI.create` rejects throws
  `IllegalArgumentException`. That is not an `IOException`, so it ends the
  collector thread. Its key has already received its (possibly new, empty) set.

## Model

| member | source | states |
|---|---|---|
| Common.Contains | src/tp1/server/resources/UsersResource.java:149 | `String.contains`: true exactly when the pattern occurs as a contiguous block of the string |
| Common.Raise | src/tp1/util/ExceptionMapper.java:14-21 | vocabulary (the definition, restated in the ensures): SOAP gives SoapException(message), REST gives WebApplicationException(status). The resource contracts use it for every error path |
| Users.UsersResource.constructor | src/tp1/server/resources/UsersResource.java:31-38 | a new resource has its domain and binding and an empty user map |
| Users.Complete | src/tp1/server/resources/UsersResource.java:44-45 | vocabulary (the definition, restated in the ensures): a user record is valid exactly when none of its four fields is null. CreateUser's contract uses it |
| Users.QualifiedId | src/tp1/server/resources/UsersResource.java:51 | the key of a created user: its id, then `@`, then the domain |
| Users.UsersResource.GetUser | src/tp1/server/resources/UsersResource.java:65-83 | Ok exactly when both arguments are non-null, the key is present and the stored password equals the given one, and then the stored record. A null argument gives BAD_REQUEST, an absent key NOT_FOUND and a wrong password FORBIDDEN, each with its message under SOAP. A stored null password gives NullPointerException, and only then. The map is only read |
| Users.UsersResource.CreateUser | src/tp1/server/resources/UsersResource.java:41-61 | a null field gives BAD_REQUEST and a taken `userId@domain` gives CONFLICT, both with the map unchanged. Otherwise it returns `userId@domain`, exactly that key is added with the given record, and getUser with that key and password returns the record |
| Users.UsersResource.UpdateUser | src/tp1/server/resources/UsersResource.java:87-109 | returns what getUser returns on the same credentials, which is the old record on success. On success exactly that key now holds `User(userId, fullName, email, password)` of the argument, and getUser with the new password returns it. On failure the map is unchanged |
| Users.UsersResource.DeleteUser | src/tp1/server/resources/UsersResource.java:113-134 | returns what getUser returns on the same credentials. On success exactly that key is removed and getUser then gives NOT_FOUND. On failure the map is unchanged |
| Users.UsersResource.SearchUsers | src/tp1/server/resources/UsersResource.java:138-150 | a sub-map of the users. A null or empty pattern gives all users. Otherwise a user is included exactly when its full name contains the pattern, case-sensitively. It fails with NullPointerException exactly when the pattern is non-empty and some stored full name is null. The map is only read |
| Users.SearchNarrows | src/tp1/server/resources/UsersResource.java:149 | a pattern that contains another pattern never finds more users |
| ServiceDiscovery.IndexOf | src/tp1/discovery/Discovery.java:122 | the position of the first occurrence of the delimiter |
| ServiceDiscovery.Announcement | src/tp1/discovery/Discovery.java:77 | the datagram text: the domain, `:`, the service name, a tab, then the URI, and nothing else |
| ServiceDiscovery.SplitAll | src/tp1/discovery/Discovery.java:122 | at least one field, and no field contains the delimiter |
| ServiceDiscovery.SplitJoin | src/tp1/discovery/Discovery.java:122 | splitting loses nothing: joining the fields with the delimiter gives the message back |
| ServiceDiscovery.DropTrailingEmpty | src/tp1/discovery/Discovery.java:122 | a prefix of the fields that is empty or ends in a non-empty field, and only empty fields follow it |
| ServiceDiscovery.DropEmpties | src/tp1/discovery/Discovery.java:122 | exactly the trailing empty fields are removed |
| ServiceDiscovery.JavaSplit | src/tp1/discovery/Discovery.java:122 | `String.split` on a one-character delimiter: the whole string when the delimiter does not occur, otherwise all fields between delimiters with exactly the trailing empty ones removed; no field holds the delimiter |
| ServiceDiscovery.Decode | src/tp1/discovery/Discovery.java:122-128 | an accepted message yields a tab-free key and a tab-free, non-empty endpoint |
| ServiceDiscovery.DecodeAnnouncement | src/tp1/discovery/Discovery.java:77 | round trip: when no field holds a tab and the URI is non-empty, the announcement decodes to key `domain:service` and that URI |
| ServiceDiscovery.DecodeWithTrailingTabs | src/tp1/discovery/Discovery.java:122-124 | `key<TAB>uri` followed by any number of tabs is still accepted as (key, uri), because split drops trailing empty fields |
| ServiceDiscovery.DecodeExactly | src/tp1/discovery/Discovery.java:122-128 | a message decodes to (k, u) if and only if k and u are tab-free, u is non-empty and the message is `k<TAB>u` followed by zero or more tabs |
| ServiceDiscovery.DecodeRejectsEmptyUri | src/tp1/discovery/Discovery.java:122-124 | a key followed only by tabs is discarded |
| ServiceDiscovery.DecodeRejectsExtraField | src/tp1/discovery/Discovery.java:122-124 | a message with a third non-empty field is discarded |
| ServiceDiscovery.Discovery.constructor | src/tp1/discovery/Discovery.java:53-61 | an empty registry and timestamp map; the collector has not stopped (it is started separately) |
| ServiceDiscovery.Discovery.Receive | src/tp1/discovery/Discovery.java:118-135 | a message that does not split into exactly two fields leaves the registry and timestamps unchanged. Otherwise the key gets a set if it had none. If `URI.create` accepts the endpoint, the endpoint is added to that set and the key's timestamp becomes `now`; if it rejects the endpoint, the collector ends. Sets only grow, and once the collector has ended nothing changes |
| ServiceDiscovery.Discovery.KnownUrisOf | src/tp1/discovery/Discovery.java:153-155 | as written: the set under `domain:serviceName` of this instance, or null, whatever service is asked for |
| ServiceDiscovery.Discovery.KnownUrisOfService | src/tp1/discovery/Discovery.java:153-155 | as intended: the set under `domain:service`, or null exactly when that key was never registered; AnnouncedIsResolvable proves an announced endpoint is found through it |
| ServiceDiscovery.KnownUrisOfMissesOtherService | src/tp1/discovery/Discovery.java:153-155 | a spreadsheet server's registry that holds a Users endpoint of domain "d" answers null for ("d", "UsersService") |
| ServiceDiscovery.AnnouncedIsResolvable | src/tp1/discovery/Discovery.java:77-135 | after a live collector receives an announcement of (domain, service, uri), that uri is among the endpoints known for (domain, service), and every endpoint known before still is |
| ServiceDiscovery.BothEndpointsKept | src/tp1/discovery/Discovery.java:128-133 | two endpoints announced under the same key are both kept |
| ClientFactory.TransportFor | src/tp1/server/resources/SpreadsheetResource.java:77-80 | REST exactly when the URL contains "/rest", SOAP otherwise |
| ClientFactory.Build | src/tp1/server/resources/SpreadsheetResource.java:69-86 | no client when no endpoint is known. When one is built, its URL is a known endpoint that the constructor accepts, with the transport for that URL. A client is built whenever endpoints are known and every one is accepted by the constructor |
| ClientFactory.RemoteSpreadsheetClients.constructor | src/tp1/server/resources/SpreadsheetResource.java:63-64 | the cache starts empty |
| ClientFactory.RemoteSpreadsheetClients.GetRemoteSpreadsheetClient | src/tp1/server/resources/SpreadsheetResource.java:62-89 | as written. A cached domain returns the cached client, whatever the registry holds. An unknown domain whose lookup is null fails with NullPointerException. Otherwise any client returned is for a known URL, with the transport for that URL, and is cached; when none is built, nothing is cached. A client is always returned and cached when the known set is non-empty and every URL in it constructs |
| ClientFactory.RemoteSpreadsheetClients.GetRemoteSpreadsheetClientOrNull | src/tp1/server/resources/SpreadsheetResource.java:62-89 | as intended: as above, except that when no endpoint is known it returns null and caches nothing. A client is always returned when endpoints are announced and every one constructs. Every cached client was built for an endpoint announced for its domain |
| ClientFactory.UnknownDomainDereferencesNull | src/tp1/server/resources/SpreadsheetResource.java:69-72 | on an empty registry the as-written lookup fails with NullPointerException, and the intended one returns null |
| ClientFactory.CachedClientIsStable | src/tp1/server/resources/SpreadsheetResource.java:66-67 | two calls for a cached domain, with any registries, return the same cached client |
| ClientFactory.ReceiveKeepsValid | src/tp1/discovery/Discovery.java:129-133 | a collector step keeps every cached remote client valid: its domain stays registered and its URL stays among the known ones |
| Spreadsheets.Spreadsheet.constructor | src/tp1/server/resources/SpreadsheetResource.java:138 | the new sheet has the given id and domain, and the sent owner, size, cells and sharing set |
| Spreadsheets.Spreadsheet.PlaceCellRawValue | src/tp1/server/resources/SpreadsheetResource.java:262 | only the raw value at (row, column) changes |
| Spreadsheets.SpreadsheetResource.constructor | src/tp1/server/resources/SpreadsheetResource.java:50-55 | an empty store and no cached users client |
| Spreadsheets.SpreadsheetResource.NextFreeId | src/tp1/server/resources/SpreadsheetResource.java:133-136 | the first drawn id that is not a key of the store |
| Spreadsheets.SpreadsheetResource.CreateSpreadsheet | src/tp1/server/resources/SpreadsheetResource.java:115-144 | a null sheet or password gives BAD_REQUEST, with the store and the users-client cache unchanged. Otherwise getLocalUsersClient is called, with its effect on the cache. A missing client, a false answer or an exception gives BAD_REQUEST "User not found." with the store unchanged. Otherwise it returns an id that was not a key before and is among the draws. Exactly that key is added, holding a new sheet with the sent content, and no other entry changes |
| Spreadsheets.SpreadsheetResource.DeleteSpreadsheet | src/tp1/server/resources/SpreadsheetResource.java:147-171 | null arguments give BAD_REQUEST and an absent id NOT_FOUND, both leaving the users-client cache alone. For an existing sheet getLocalUsersClient is called, with its effect on the cache. A missing client or a false or failed check of the owner gives BAD_REQUEST "User not found.", not FORBIDDEN. The store is unchanged in all three failure cases. On success exactly that id is removed |
| Spreadsheets.SpreadsheetResource.GetSpreadsheet | src/tp1/server/resources/SpreadsheetResource.java:174-203 | getLocalUsersClient is called, with its effect on the cache, exactly when the request passes the null, existence, sharing and domain checks. The answer is GetSpreadsheetWith for the client it returned. The store is only read |
| Spreadsheets.SpreadsheetResource.GetSpreadsheetWith | src/tp1/server/resources/SpreadsheetResource.java:174-203 | given the users client: Ok exactly when the arguments are non-null, the sheet exists, the requester is in `sharedWith` and in the owner's domain, and the OWNER's credentials check with the given password; it then returns the stored sheet. Each failure has its own status and message. A missing client or a false or failed check gives NOT_FOUND |
| Spreadsheets.SpreadsheetResource.MayRead | src/tp1/server/resources/SpreadsheetResource.java:186-192 | vocabulary (the definition, restated in the ensures): the requester is in `sharedWith` and in the owner's domain. GetSpreadsheetWith and OwnerMustBeShared use it |
| Spreadsheets.CheckOwner | src/tp1/server/resources/SpreadsheetResource.java:126-126 | vocabulary (the definition, restated in the ensures): `getLocalUsersClient().verifyUser(owner, password)`, where a null client throws (caught by the surrounding `catch`, as also at lines 162 and 195) and otherwise the client's verifyUser answers. CreateSpreadsheet, DeleteSpreadsheet, GetSpreadsheetWith, SoapOwnerCheck and RestOwnerCheck use it |
| Spreadsheets.SpreadsheetResource.GetSpreadsheetValues | src/tp1/server/resources/SpreadsheetResource.java:232-244 | acts on the users-client cache as getSpreadsheet does, and fails as getSpreadsheet fails. Otherwise it returns the engine's values for the sheet, or BAD_REQUEST "Error in spreadsheet" when the engine throws |
| Spreadsheets.SpreadsheetResource.GetReferencedSpreadsheetValues | src/tp1/server/resources/SpreadsheetResource.java:206-229 | null arguments give BAD_REQUEST and an absent sheet NOT_FOUND. A requester not in `sharedWith` gives BAD_REQUEST. Otherwise it returns the requested range of the engine's values. There is no domain check and no password. An engine failure gives BAD_REQUEST; a range failure propagates |
| Spreadsheets.SpreadsheetResource.UpdateCell | src/tp1/server/resources/SpreadsheetResource.java:247-269 | a null argument gives BAD_REQUEST "Malformed request." with the cache unchanged. Otherwise it acts on the users-client cache as getSpreadsheet does and fails as getSpreadsheet fails, and an unparsable cell id gives BAD_REQUEST "Invalid spreadsheet cell.". On success only the raw value at the parsed coordinate of that one sheet changes. The store map, the sharing set and every other sheet are unchanged |
| Spreadsheets.SpreadsheetResource.ShareSpreadsheet | src/tp1/server/resources/SpreadsheetResource.java:273-294 | after the checks that are not part of this model: CONFLICT when the user is already in `sharedWith`, otherwise exactly that user is added. The raw cells and the other sheets are unchanged |
| Spreadsheets.SpreadsheetResource.UnshareSpreadsheet | src/tp1/server/resources/SpreadsheetResource.java:297-316 | after the same checks: NOT_FOUND with the "not sharing" message when the user is absent, otherwise exactly that user is removed. The raw cells and the other sheets are unchanged |
| Spreadsheets.SpreadsheetResource.GetLocalUsersClient | src/tp1/server/resources/SpreadsheetResource.java:92-112 | returns the new cache. A cached users client is kept. Otherwise, when no endpoint is announced for (this domain, UsersService), there is no client. A client that is built is for an announced endpoint that its constructor accepts, with the transport for its URL. One is built whenever endpoints are known and every one is accepted. Nothing but the cache changes |
| Spreadsheets.ShareThenUnshare | src/tp1/server/resources/SpreadsheetResource.java:283-314 | sharing a user who was not shared and then unsharing that user restores the sheet |
| Spreadsheets.ShareTwiceConflicts | src/tp1/server/resources/SpreadsheetResource.java:285-290 | sharing the same user twice: the first share succeeds exactly when the user was not shared, the second gives CONFLICT, and the sharing set ends as the old one plus that user |
| Spreadsheets.OwnerMustBeShared | src/tp1/server/resources/SpreadsheetResource.java:186-192 | the owner reads the sheet only if listed in `sharedWith` |
| Spreadsheets.ReferencedSkipsDomainCheck | src/tp1/server/resources/SpreadsheetResource.java:186-228 | a shared requester of another domain is refused by getSpreadsheet but served by getReferencedSpreadsheetValues |
| Spreadsheets.FirstCheckFillsCache | src/tp1/server/resources/SpreadsheetResource.java:93-106 | on a resource with no users client, a getSpreadsheet that reaches the credential check while a constructible Users endpoint is announced leaves a client for one of those endpoints in the cache |
| SoapRetry.Settle | src/tp1/clients/SpreadsheetSoapClient.java:42-48 | a returned value is the result; any failure is raised with its message |
| SoapRetry.CountFrom | src/tp1/clients/SpreadsheetSoapClient.java:38-53 | attempts go on only past non-SOAP failures, and stop at MAX_RETRIES = 3 |
| SoapRetry.Retry | src/tp1/clients/SpreadsheetSoapClient.java:35-56 | the loop makes exactly AttemptCount calls, each sending the same request, and sleeps exactly PauseCount times, and returns or raises RetryOutcome |
| SoapRetry.RetryCharacterized | src/tp1/clients/SpreadsheetSoapClient.java:38-53 | stopping after k non-SOAP failures and one SoapException or return, or at the third attempt, means k + 1 attempts |
| SoapRetry.FirstReturnWins | src/tp1/clients/SpreadsheetSoapClient.java:42-43 | the first attempt that returns gives the result, after one pause per earlier failure |
| SoapRetry.AppFaultStops | src/tp1/clients/SpreadsheetSoapClient.java:44-55 | a SoapException ends the loop with no further attempt and no pause after it, and its message is raised |
| SoapRetry.ExhaustedRaisesLast | src/tp1/clients/SpreadsheetSoapClient.java:47-55 | three non-SOAP failures give three attempts and three pauses, and the last failure's message is raised |
| SoapRetry.OnlyFirstAttemptsMatter | src/tp1/clients/SpreadsheetSoapClient.java:53 | no outcome after the third attempt affects retry |
| SoapClients.Repeat | src/tp1/clients/SpreadsheetSoapClient.java:60 | n copies of one request |
| SoapClients.Delegate | src/tp1/clients/SpreadsheetSoapClient.java:58-104 | the requests the retry loop sent are one copy of the request per attempt, and the result, attempt count and pause count are retry's |
| SoapClients.Deliver | src/tp1/util/ExceptionMapper.java:14-21 | what a SOAP resource's answer looks like to the client: the value, the SoapException the resource raised with its message, or a fault that is not a SoapException carrying the server exception's message |
| SoapClients.SpreadsheetSoapClient.constructor | src/tp1/clients/SpreadsheetSoapClient.java:26-33 | the client is bound to its server URL |
| SoapClients.SpreadsheetSoapClient.CreateSpreadsheet | src/tp1/clients/SpreadsheetSoapClient.java:59-61 | retry over createSpreadsheet calls with the caller's arguments |
| SoapClients.SpreadsheetSoapClient.DeleteSpreadsheet | src/tp1/clients/SpreadsheetSoapClient.java:64-68 | retry over deleteSpreadsheet calls with the caller's arguments |
| SoapClients.SpreadsheetSoapClient.GetSpreadsheet | src/tp1/clients/SpreadsheetSoapClient.java:71-73 | retry over getSpreadsheet calls with the caller's arguments |
| SoapClients.SpreadsheetSoapClient.GetSpreadsheetValues | src/tp1/clients/SpreadsheetSoapClient.java:76-78 | retry over getSpreadsheetValues calls with the caller's arguments |
| SoapClients.SpreadsheetSoapClient.GetReferencedSpreadsheetValues | src/tp1/clients/SpreadsheetSoapClient.java:81-83 | retry over getReferencedSpreadsheetValues calls with the caller's arguments |
| SoapClients.SpreadsheetSoapClient.UpdateCell | src/tp1/clients/SpreadsheetSoapClient.java:86-90 | retry over updateCell calls with the caller's arguments |
| SoapClients.SpreadsheetSoapClient.ShareSpreadsheet | src/tp1/clients/SpreadsheetSoapClient.java:93-97 | retry over shareSpreadsheet calls with the caller's arguments |
| SoapClients.SpreadsheetSoapClient.UnshareSpreadsheet | src/tp1/clients/SpreadsheetSoapClient.java:100-104 | retry over unshareSpreadsheet calls with the caller's arguments |
| SoapClients.ClassifyGetUser | src/tp1/clients/UsersSoapClient.java:70-78 | a return becomes true. A failure whose message contains "not exist" becomes false. A null message becomes a non-SOAP failure. Any other failure is rethrown as it was |
| SoapClients.ClassifyAll | src/tp1/clients/UsersSoapClient.java:69-79 | the classification applied to every attempt |
| SoapClients.UsersSoapClient.constructor | src/tp1/clients/UsersSoapClient.java:30-37 | the client is bound to its server URL |
| SoapClients.UsersSoapClient.CreateUser | src/tp1/clients/UsersSoapClient.java:62-65 | retry over createUser calls with the caller's user |
| SoapClients.UsersSoapClient.VerifyUser | src/tp1/clients/UsersSoapClient.java:67-80 | retry over classified getUser calls with the caller's credentials |
| SoapClients.UsersSoapClient.GetUser | src/tp1/clients/UsersSoapClient.java:82-85 | retry over getUser calls with the caller's arguments |
| SoapClients.UsersSoapClient.UpdateUser | src/tp1/clients/UsersSoapClient.java:87-90 | retry over updateUser calls with the caller's arguments |
| SoapClients.UsersSoapClient.DeleteUser | src/tp1/clients/UsersSoapClient.java:92-95 | retry over deleteUser calls with the caller's arguments |
| SoapClients.UsersSoapClient.SearchUsers | src/tp1/clients/UsersSoapClient.java:97-100 | retry over searchUsers calls with the caller's pattern |
| SoapClients.VerifyTrueOnReturn | src/tp1/clients/UsersSoapClient.java:70-72 | verifyUser answers true on the first getUser that returns |
| SoapClients.VerifyFalseOnNotExist | src/tp1/clients/UsersSoapClient.java:73-75 | verifyUser answers false, with no further attempt, on a failure whose message contains "not exist" |
| SoapClients.VerifyRaisesOtherSoapFault | src/tp1/clients/UsersSoapClient.java:48-77 | any other SoapException is raised at once, without a retry or a pause after it |
| SoapClients.NoSuchUserIsNotExist | src/tp1/server/resources/UsersResource.java:75 | "User does not exist." contains "not exist" |
| SoapClients.WrongPasswordIsNotNotExist | src/tp1/server/resources/UsersResource.java:79 | "Password is incorrect." does not contain "not exist" |
| SoapClients.VerifyAgainstUsersResource | src/tp1/clients/UsersSoapClient.java:67-80 | against a SOAP Users resource, one attempt answers: false for an unknown user, true for the right password, and "Password is incorrect." raised for a wrong one |
| SoapClients.AsVerifyOutcome | src/tp1/server/resources/SpreadsheetResource.java:126-130 | a verifyUser outcome as the resource's check sees it: the answer, or an exception |
| SoapClients.SoapOwnerCheck | src/tp1/server/resources/SpreadsheetResource.java:195-200 | with a SOAP users client whose Users resource answers each attempt alike, the resource's credential check passes exactly when the owner exists and the password is the stored one |
| SoapClients.RestVerifyUser | src/tp1/clients/UsersRestClient.java:50-58 | 200 with an entity is true, 403 is false, and anything else throws |
| SoapClients.HttpStatus | src/tp1/util/ExceptionMapper.java:19-20 | the reply status for a REST resource's answer: 200 exactly on success |
| SoapClients.RestVerifyAgainstUsersResource | src/tp1/clients/UsersRestClient.java:44-60 | over REST an unknown user makes verifyUser throw (404), a wrong password gives false, and true comes exactly with the right password |
| SoapClients.RestOwnerCheck | src/tp1/server/resources/SpreadsheetResource.java:195-200 | the same with a REST users client: the check passes exactly when the owner exists and the password is the stored one |

## Left out

- Sockets, threads and sleeping are not modelled. This covers the multicast socket, the sending loop, the infinite collector loop and `Thread.sleep`. The model has one collector step on a given message; a sleep of the retry loop is a counted pause.
- Concurrency (`synchronized`, the unsynchronized `HashMap` of the registry, read/delete races): every operation is atomic and sequential.
- Datagrams are not modelled as bytes. The 1024-byte read buffer and the platform charset are left out, and the message is a string.
- `timeStamps` is modelled only because the collector writes it (the source reads no timestamp). Its values are `now`, a parameter standing for `System.currentTimeMillis()`.
- A null `User` argument to createUser or updateUser is not modelled. In createUser it raises NullPointerException at once. In updateUser it raises NullPointerException only once the credential checks pass; earlier failures are reported as for any user.
- A null owner in a sheet is not modelled. In createSpreadsheet it reaches `verifyUser(null, password)` inside the `try`, so it ends as BAD_REQUEST "User not found."; over SOAP the Users resource answers "UserId or passwrod null.", which verifyUser rethrows and the `catch` maps the same way.
- SearchUsers: returns the matching entries as a sub-map; the order of the returned list is HashMap order and is not modelled.
- The REST clients and REST servers, apart from the reply mapping of `UsersRestClient.verifyUser`, are not modelled. The server bootstraps and the command-line clients are not modelled either.
- `tp1.api.Spreadsheet` is not part of this model. The model assumes its constructor copies the sent owner, size, cells and sharing set, and that `placeCellRawValue` sets one cell. It also assumes `extractOwnerDomain` is the domain of the owner's id.
- The formula engine, cell-id parsing, range extraction, `User.extractDomain` and `URI.create` are not part of this model. They are function parameters.
- The UUID generator is not part of this model. The loop draws from a given sequence, which has to contain a fresh id.
- ShareSpreadsheet and UnshareSpreadsheet: `checkSheetIdString`, `checkSheet` and `users.getUser` are not defined in the source file. They are modelled as one lookup, where an unknown sheet fails with an exception of code outside the model, and one owner check given as a parameter. A null sheet id or user id is not modelled.
- SoapClients.ClassifyGetUser: the message of the NullPointerException raised by `contains` on a null message is taken to be null.
- SoapClients.Deliver: the fault string of a server-side exception other than `SoapException` is a parameter, not derived from the exception.
- Each SOAP client operation is given the outcomes of its remote calls. It is not tied to a Users or Spreadsheets resource evolving across attempts. `VerifyAgainstUsersResource` ties only the first attempt of verifyUser to `GetUser`.
- Spreadsheets.SpreadsheetResource.GetLocalUsersClient: uses the corrected lookup of the two findings below (knownUrisOf and getRemoteSpreadsheetClient). The users client is looked up under `UsersService`, and a missing entry means no client. In the source, line 95 shares both defects.
- The spreadsheet operations take verifyUser of a users client as `verifier`. They call GetLocalUsersClient for the client; a missing client counts as an exception, as the NullPointerException it raises is caught.
- The registry holds endpoints as strings, where the source holds `java.net.URI` values. `URI.equals` ignores the case of the scheme and host, so `http://H:8080/rest` and `http://h:8080/rest` are one entry in the source and two in the model.

## Findings

| source | as written | input that shows it | evidently intended | confidence | as-written member | corrected member |
|---|---|---|---|---|---|---|
| src/tp1/discovery/Discovery.java:153-155 | `knownUrisOf(domain, service)` looks up `domain:serviceName` of its own instance and ignores `service` | a spreadsheet server's registry (serviceName "SpreadsheetsService") holding `d:UsersService -> {http://u:8080/rest}`; `knownUrisOf("d", "UsersService")` is null, so getLocalUsersClient finds no Users server | the set under `domain:service` | not executed | ServiceDiscovery.Discovery.KnownUrisOf | ServiceDiscovery.Discovery.KnownUrisOfService |
| src/tp1/server/resources/SpreadsheetResource.java:69-72 | `knownUrisOf(...).stream()` is called on a null set when the domain was never announced | a fresh registry, asking for a client of domain "far": NullPointerException | null, with nothing cached, as line 75 expects | not executed | ClientFactory.RemoteSpreadsheetClients.GetRemoteSpreadsheetClient | ClientFactory.RemoteSpreadsheetClients.GetRemoteSpreadsheetClientOrNull |
