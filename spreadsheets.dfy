/** The Spreadsheets service of one domain: an in-memory table from sheet id to
    sheet, the read-permission rule, cell updates and the sharing set. */
module Spreadsheets {
  import opened Common
  import opened ServiceDiscovery
  import opened ClientFactory

  /** The fields of a tp1.api.Spreadsheet that a client sends to createSpreadsheet. */
  datatype SheetData = SheetData(owner: string, rows: int, columns: int,
                                 rawValues: map<(int, int), string>, sharedWith: set<string>)

  /** A computed value matrix, String[][]. */
  type Matrix = seq<seq<string>>

  const SheetOrPasswordNull := "Sheet or password null."
  const SheetIdOrPasswordNull := "SheetId or password null."
  const GetArgumentNull := "SheetId or userId or password null."
  const RangeArgumentNull := "SheetId or userId or range null."
  const MalformedRequest := "Malformed request."
  const NoSuchSheet := "Sheet doesnt exist."
  const UserNotFound := "User not found."
  const EngineFailed := "Error in spreadsheet"
  const InvalidCell := "Invalid spreadsheet cell."

  function NoReadPermission(userId: string): string
  {
    "User " + userId + " does not have permissions to read this spreadsheet."
  }

  function NotSharing(userId: string): string
  {
    "User " + userId + " is not sharing this spreadsheet therefore it cannot be unshared."
  }

  /** A stored sheet: its identity is fixed, its raw cells and sharing set change in place. */
  class Spreadsheet {
    const sheetId: string
    const owner: string
    const domain: string
    const rows: int
    const columns: int
    var rawValues: map<(int, int), string>
    var sharedWith: set<string>

    /** new Spreadsheet(sheet, sheetId, domainId). */
    constructor (sheet: SheetData, sheetId: string, domain: string)
      ensures this.sheetId == sheetId && this.domain == domain
      ensures Snapshot() == sheet
    {
      this.sheetId := sheetId;
      this.domain := domain;
      owner := sheet.owner;
      rows := sheet.rows;
      columns := sheet.columns;
      rawValues := sheet.rawValues;
      sharedWith := sheet.sharedWith;
    }

    /** The sheet's current content, as the engine and clients see it. */
    function Snapshot(): SheetData
      reads this
    {
      SheetData(owner, rows, columns, rawValues, sharedWith)
    }

    /** placeCellRawValue(row, column, raw). */
    method PlaceCellRawValue(row: int, column: int, raw: string)
      modifies this
      ensures rawValues == old(rawValues)[(row, column) := raw]
      ensures sharedWith == old(sharedWith)
    {
      rawValues := rawValues[(row, column) := raw];
    }
  }

  /** The credential check `getLocalUsersClient().verifyUser(owner, password)`
      when getLocalUsersClient() answered `client`: `verifier` is verifyUser
      of a users client, and a null client makes the call throw
      NullPointerException. */
  function CheckOwner(client: Option<ApiClient>, verifier: (ApiClient, string, string) -> VerifyOutcome,
                      owner: string, password: string): (v: VerifyOutcome)
    ensures client.None? ==> v == VerifyThrew
    ensures client.Some? ==> v == verifier(client.value, owner, password)
  {
    if client.None? then VerifyThrew else verifier(client.value, owner, password)
  }

  class SpreadsheetResource {
    const domainId: string
    const serviceType: ServiceType
    /** User.extractDomain: the domain part of a qualified user id. */
    const domainOf: string -> string
    var spreadsheets: map<string, Spreadsheet>
    var cachedUserClient: Option<ApiClient>

    constructor (domainId: string, serviceType: ServiceType, domainOf: string -> string)
      ensures this.domainId == domainId && this.serviceType == serviceType && this.domainOf == domainOf
      ensures spreadsheets == map[] && cachedUserClient.None?
      ensures Valid()
    {
      this.domainId := domainId;
      this.serviceType := serviceType;
      this.domainOf := domainOf;
      spreadsheets := map[];
      cachedUserClient := None;
    }

    /** Every sheet is stored under its own id; so no sheet is stored twice. */
    ghost predicate Valid()
      reads this
    {
      forall k :: k in spreadsheets ==> spreadsheets[k].sheetId == k
    }

    /** The read rule of getSpreadsheet: the requester is in the sharing set
        and in the owner's domain. The owner is not admitted otherwise. */
    predicate MayRead(sheet: Spreadsheet, userId: string): (b: bool)
      reads sheet`sharedWith
      ensures b ==> userId in sheet.sharedWith
      ensures userId in sheet.sharedWith ==> (b <==> domainOf(userId) == domainOf(sheet.owner))
    {
      userId in sheet.sharedWith && domainOf(userId) == domainOf(sheet.owner)
    }

    /** What one call of getLocalUsersClient does to cachedUserClient,
        `before` to `after`: a cached client is kept; otherwise a client is
        built for an endpoint announced for (domainId, UsersService), when one
        is known and its constructor does not throw. */
    ghost predicate UsersClientStep(before: Option<ApiClient>, after: Option<ApiClient>,
                                    discovery: Discovery, constructs: string -> bool)
      reads discovery
    {
      var known := discovery.KnownUrisOfService(domainId, UsersService);
      (before.Some? ==> after == before)
      && (before.None? && known.None? ==> after.None?)
      && (before.None? && after.Some? ==>
            known.Some? && after.value.serverUrl in known.value && constructs(after.value.serverUrl)
            && after.value.transport == TransportFor(after.value.serverUrl))
      && (before.None? && known.Some? && known.value != {} && (forall u :: u in known.value ==> constructs(u)) ==>
            after.Some?)
    }

    /** getLocalUsersClient: the users client is built once and kept in
        cachedUserClient; until one is built every call consults the registry
        for the endpoints announced for (domainId, UsersService). */
    method GetLocalUsersClient(discovery: Discovery, constructs: string -> bool) returns (c: Option<ApiClient>)
      modifies this`cachedUserClient
      ensures c == cachedUserClient
      ensures UsersClientStep(old(cachedUserClient), c, discovery, constructs)
    {
      if cachedUserClient.None? {
        var known := discovery.KnownUrisOfService(domainId, UsersService);
        if known.Some? {
          cachedUserClient := Build(known.value, constructs);
        }
      }
      c := cachedUserClient;
    }

    /** The do-while loop drawing random UUIDs until one is not a key:
        `uuids` are the draws, in order. */
    method NextFreeId(uuids: seq<string>) returns (id: string)
      requires exists i :: 0 <= i < |uuids| && uuids[i] !in spreadsheets
      ensures id !in spreadsheets
      ensures exists i :: 0 <= i < |uuids| && uuids[i] == id && forall j :: 0 <= j < i ==> uuids[j] in spreadsheets
    {
      var i := 0;
      id := uuids[0];
      while id in spreadsheets
        invariant 0 <= i < |uuids| && id == uuids[i]
        invariant forall j :: 0 <= j < i ==> uuids[j] in spreadsheets
        invariant exists f :: i <= f < |uuids| && uuids[f] !in spreadsheets
        decreases |uuids| - i
      {
        i := i + 1;
        id := uuids[i];
      }
    }

    /** createSpreadsheet: after the null check the owner's credentials are
        checked through getLocalUsersClient(), which may fill the users-client
        cache; a false answer and an exception alike are caught and reported
        as BAD_REQUEST "User not found.". */
    method CreateSpreadsheet(sheet: Option<SheetData>, password: Option<string>,
                             discovery: Discovery, constructs: string -> bool,
                             verifier: (ApiClient, string, string) -> VerifyOutcome, uuids: seq<string>)
      returns (r: Result<string>)
      requires Valid()
      requires exists i :: 0 <= i < |uuids| && uuids[i] !in spreadsheets
      modifies this
      ensures Valid()
      ensures sheet.None? || password.None? ==>
                r == Err(Raise(serviceType, SheetOrPasswordNull, BadRequest))
                && spreadsheets == old(spreadsheets) && cachedUserClient == old(cachedUserClient)
      ensures sheet.Some? && password.Some? ==>
                UsersClientStep(old(cachedUserClient), cachedUserClient, discovery, constructs)
      ensures sheet.Some? && password.Some?
              && CheckOwner(cachedUserClient, verifier, sheet.value.owner, password.value) != Verified(true) ==>
                r == Err(Raise(serviceType, UserNotFound, BadRequest)) && spreadsheets == old(spreadsheets)
      ensures r.Ok? <==> sheet.Some? && password.Some?
                         && CheckOwner(cachedUserClient, verifier, sheet.value.owner, password.value) == Verified(true)
      ensures r.Ok? ==>
                r.value !in old(spreadsheets) && r.value in uuids
                && spreadsheets.Keys == old(spreadsheets).Keys + {r.value}
                && (forall k :: k in old(spreadsheets) ==> spreadsheets[k] == old(spreadsheets)[k])
                && fresh(spreadsheets[r.value])
                && spreadsheets[r.value].Snapshot() == sheet.value
                && spreadsheets[r.value].domain == domainId
    {
      if sheet.None? || password.None? {
        return Err(Raise(serviceType, SheetOrPasswordNull, BadRequest));
      }
      var client := GetLocalUsersClient(discovery, constructs);
      if CheckOwner(client, verifier, sheet.value.owner, password.value) != Verified(true) {
        return Err(Raise(serviceType, UserNotFound, BadRequest));
      }
      var sheetId := NextFreeId(uuids);
      var spreadsheet := new Spreadsheet(sheet.value, sheetId, domainId);
      spreadsheets := spreadsheets[sheetId := spreadsheet];
      r := Ok(sheetId);
    }

    /** deleteSpreadsheet: the owner's credentials are checked through
        getLocalUsersClient() once the sheet is found; an invalid password and
        a failed check alike are reported as BAD_REQUEST "User not found.". */
    method DeleteSpreadsheet(sheetId: Option<string>, password: Option<string>,
                             discovery: Discovery, constructs: string -> bool,
                             verifier: (ApiClient, string, string) -> VerifyOutcome)
      returns (r: Result<()>)
      requires Valid()
      modifies this
      ensures Valid()
      ensures sheetId.None? || password.None? ==>
                r == Err(Raise(serviceType, SheetIdOrPasswordNull, BadRequest))
      ensures sheetId.Some? && password.Some? && sheetId.value !in old(spreadsheets) ==>
                r == Err(Raise(serviceType, NoSuchSheet, NotFound))
      ensures sheetId.Some? && password.Some? && sheetId.value in old(spreadsheets) ==>
                UsersClientStep(old(cachedUserClient), cachedUserClient, discovery, constructs)
      ensures !(sheetId.Some? && password.Some? && sheetId.value in old(spreadsheets)) ==>
                cachedUserClient == old(cachedUserClient)
      ensures sheetId.Some? && password.Some? && sheetId.value in old(spreadsheets)
              && CheckOwner(cachedUserClient, verifier, old(spreadsheets)[sheetId.value].owner, password.value)
                 != Verified(true) ==>
                r == Err(Raise(serviceType, UserNotFound, BadRequest))
      ensures r.Ok? <==> sheetId.Some? && password.Some? && sheetId.value in old(spreadsheets)
                         && CheckOwner(cachedUserClient, verifier, old(spreadsheets)[sheetId.value].owner, password.value)
                            == Verified(true)
      ensures r.Err? ==> spreadsheets == old(spreadsheets)
      ensures r.Ok? ==> spreadsheets == old(spreadsheets) - {sheetId.value}
    {
      if sheetId.None? || password.None? {
        return Err(Raise(serviceType, SheetIdOrPasswordNull, BadRequest));
      }
      if sheetId.value !in spreadsheets {
        return Err(Raise(serviceType, NoSuchSheet, NotFound));
      }
      var sheet := spreadsheets[sheetId.value];
      var client := GetLocalUsersClient(discovery, constructs);
      if CheckOwner(client, verifier, sheet.owner, password.value) != Verified(true) {
        return Err(Raise(serviceType, UserNotFound, BadRequest));
      }
      spreadsheets := spreadsheets - {sheetId.value};
      r := Ok(());
    }

    /** getSpreadsheet gets as far as its credential check, and so calls
        getLocalUsersClient(). */
    predicate ReachesOwnerCheck(sheetId: Option<string>, userId: Option<string>, password: Option<string>)
      reads this`spreadsheets, spreadsheets.Values`sharedWith
    {
      sheetId.Some? && userId.Some? && password.Some? && sheetId.value in spreadsheets
      && MayRead(spreadsheets[sheetId.value], userId.value)
    }

    /** getSpreadsheet when getLocalUsersClient() answers `client`: the
        requester must satisfy MayRead, and it is the OWNER's credentials that
        are checked with `password`; an invalid password and a failed check
        alike are reported as NOT_FOUND. */
    function GetSpreadsheetWith(sheetId: Option<string>, userId: Option<string>, password: Option<string>,
                                client: Option<ApiClient>, verifier: (ApiClient, string, string) -> VerifyOutcome)
      : (r: Result<Spreadsheet>)
      reads this`spreadsheets, spreadsheets.Values`sharedWith
      ensures sheetId.None? || userId.None? || password.None? ==>
                r == Err(Raise(serviceType, GetArgumentNull, BadRequest))
      ensures sheetId.Some? && userId.Some? && password.Some? && sheetId.value !in spreadsheets ==>
                r == Err(Raise(serviceType, NoSuchSheet, NotFound))
      ensures sheetId.Some? && userId.Some? && password.Some? && sheetId.value in spreadsheets
              && !MayRead(spreadsheets[sheetId.value], userId.value) ==>
                r == Err(Raise(serviceType, NoReadPermission(userId.value), BadRequest))
      ensures ReachesOwnerCheck(sheetId, userId, password)
              && CheckOwner(client, verifier, spreadsheets[sheetId.value].owner, password.value) != Verified(true) ==>
                r == Err(Raise(serviceType, UserNotFound, NotFound))
      ensures r.Ok? <==> ReachesOwnerCheck(sheetId, userId, password)
                         && CheckOwner(client, verifier, spreadsheets[sheetId.value].owner, password.value)
                            == Verified(true)
      ensures r.Ok? ==> r.value == spreadsheets[sheetId.value]
    {
      if sheetId.None? || userId.None? || password.None? then
        Err(Raise(serviceType, GetArgumentNull, BadRequest))
      else if sheetId.value !in spreadsheets then
        Err(Raise(serviceType, NoSuchSheet, NotFound))
      else
        var sheet := spreadsheets[sheetId.value];
        if userId.value !in sheet.sharedWith then
          Err(Raise(serviceType, NoReadPermission(userId.value), BadRequest))
        else if domainOf(userId.value) != domainOf(sheet.owner) then
          Err(Raise(serviceType, NoReadPermission(userId.value), BadRequest))
        else if CheckOwner(client, verifier, sheet.owner, password.value) != Verified(true) then
          Err(Raise(serviceType, UserNotFound, NotFound))
        else Ok(sheet)
    }

    /** getSpreadsheet: the checks of GetSpreadsheetWith, where the users
        client is fetched, and possibly cached, only once the requester has
        passed MayRead. */
    method GetSpreadsheet(sheetId: Option<string>, userId: Option<string>, password: Option<string>,
                          discovery: Discovery, constructs: string -> bool,
                          verifier: (ApiClient, string, string) -> VerifyOutcome)
      returns (r: Result<Spreadsheet>)
      modifies this`cachedUserClient
      ensures ReachesOwnerCheck(sheetId, userId, password) ==>
                UsersClientStep(old(cachedUserClient), cachedUserClient, discovery, constructs)
      ensures !ReachesOwnerCheck(sheetId, userId, password) ==> cachedUserClient == old(cachedUserClient)
      ensures r == GetSpreadsheetWith(sheetId, userId, password, cachedUserClient, verifier)
    {
      if ReachesOwnerCheck(sheetId, userId, password) {
        var _ := GetLocalUsersClient(discovery, constructs);
      }
      r := GetSpreadsheetWith(sheetId, userId, password, cachedUserClient, verifier);
    }

    /** getSpreadsheetValues: the sheet as getSpreadsheet returns it, computed
        by `engine`; an engine exception is reported as BAD_REQUEST. */
    method GetSpreadsheetValues(sheetId: Option<string>, userId: Option<string>, password: Option<string>,
                                discovery: Discovery, constructs: string -> bool,
                                verifier: (ApiClient, string, string) -> VerifyOutcome,
                                engine: SheetData -> Option<Matrix>)
      returns (r: Result<Matrix>)
      modifies this`cachedUserClient
      ensures ReachesOwnerCheck(sheetId, userId, password) ==>
                UsersClientStep(old(cachedUserClient), cachedUserClient, discovery, constructs)
      ensures !ReachesOwnerCheck(sheetId, userId, password) ==> cachedUserClient == old(cachedUserClient)
      ensures var got := GetSpreadsheetWith(sheetId, userId, password, cachedUserClient, verifier);
              (got.Err? ==> r == Err(got.failure))
              && (got.Ok? && engine(got.value.Snapshot()).None? ==> r == Err(Raise(serviceType, EngineFailed, BadRequest)))
              && (got.Ok? && engine(got.value.Snapshot()).Some? ==> r == Ok(engine(got.value.Snapshot()).value))
    {
      var got := GetSpreadsheet(sheetId, userId, password, discovery, constructs, verifier);
      if got.Err? {
        return Err(got.failure);
      }
      var values := engine(got.value.Snapshot());
      if values.None? {
        return Err(Raise(serviceType, EngineFailed, BadRequest));
      }
      r := Ok(values.value);
    }

    /** getReferencedSpreadsheetValues: the call another domain's engine makes.
        Only membership in the sharing set is checked: no domain check and no
        password, so no users client is fetched. `extractRange` is
        CellRange(range).extractRangeValuesFrom, whose failures are not caught. */
    function GetReferencedSpreadsheetValues(sheetId: Option<string>, userId: Option<string>, range: Option<string>,
                                            engine: SheetData -> Option<Matrix>,
                                            extractRange: (string, Matrix) -> Option<Matrix>): (r: Result<Matrix>)
      reads this, spreadsheets.Values
      ensures sheetId.None? || userId.None? || range.None? ==>
                r == Err(Raise(serviceType, RangeArgumentNull, BadRequest))
      ensures sheetId.Some? && userId.Some? && range.Some? && sheetId.value !in spreadsheets ==>
                r == Err(Raise(serviceType, NoSuchSheet, NotFound))
      ensures sheetId.Some? && userId.Some? && range.Some? && sheetId.value in spreadsheets
              && userId.value !in spreadsheets[sheetId.value].sharedWith ==>
                r == Err(Raise(serviceType, NoReadPermission(userId.value), BadRequest))
      ensures sheetId.Some? && userId.Some? && range.Some? && sheetId.value in spreadsheets
              && userId.value in spreadsheets[sheetId.value].sharedWith ==>
                match engine(spreadsheets[sheetId.value].Snapshot())
                case None => r == Err(Raise(serviceType, EngineFailed, BadRequest))
                case Some(m) =>
                  match extractRange(range.value, m)
                  case None => r == Err(Unchecked)
                  case Some(sub) => r == Ok(sub)
    {
      if sheetId.None? || userId.None? || range.None? then
        Err(Raise(serviceType, RangeArgumentNull, BadRequest))
      else if sheetId.value !in spreadsheets then
        Err(Raise(serviceType, NoSuchSheet, NotFound))
      else
        var sheet := spreadsheets[sheetId.value];
        if userId.value !in sheet.sharedWith then
          Err(Raise(serviceType, NoReadPermission(userId.value), BadRequest))
        else
          var values := engine(sheet.Snapshot());
          if values.None? then Err(Raise(serviceType, EngineFailed, BadRequest))
          else
            var sub := extractRange(range.value, values.value);
            if sub.None? then Err(Unchecked) else Ok(sub.value)
    }

    /** updateCell: the sheet is obtained as getSpreadsheet obtains it (users
        client included), the cell id is parsed with `parseCellId`
        (Cell.CellId2Indexes) and the raw value placed at that coordinate. */
    method UpdateCell(sheetId: Option<string>, cell: Option<string>, rawValue: Option<string>,
                      userId: Option<string>, password: Option<string>,
                      discovery: Discovery, constructs: string -> bool,
                      verifier: (ApiClient, string, string) -> VerifyOutcome,
                      parseCellId: string -> Option<(int, int)>)
      returns (r: Result<()>)
      requires Valid()
      modifies this`cachedUserClient
      modifies if sheetId.Some? && sheetId.value in spreadsheets then {spreadsheets[sheetId.value]} else {}
      ensures spreadsheets == old(spreadsheets)
      ensures sheetId.None? || cell.None? || rawValue.None? || userId.None? || password.None? ==>
                r == Err(Raise(serviceType, MalformedRequest, BadRequest))
      ensures cell.Some? && rawValue.Some? && ReachesOwnerCheck(sheetId, userId, password) ==>
                UsersClientStep(old(cachedUserClient), cachedUserClient, discovery, constructs)
      ensures !(cell.Some? && rawValue.Some? && ReachesOwnerCheck(sheetId, userId, password)) ==>
                cachedUserClient == old(cachedUserClient)
      ensures r.Ok? <==> sheetId.Some? && cell.Some? && rawValue.Some? && userId.Some? && password.Some?
                         && GetSpreadsheetWith(sheetId, userId, password, cachedUserClient, verifier).Ok?
                         && parseCellId(cell.value).Some?
      ensures sheetId.Some? && cell.Some? && rawValue.Some? && userId.Some? && password.Some?
              && GetSpreadsheetWith(sheetId, userId, password, cachedUserClient, verifier).Err? ==>
                r == Err(GetSpreadsheetWith(sheetId, userId, password, cachedUserClient, verifier).failure)
      ensures sheetId.Some? && cell.Some? && rawValue.Some? && userId.Some? && password.Some?
              && GetSpreadsheetWith(sheetId, userId, password, cachedUserClient, verifier).Ok?
              && parseCellId(cell.value).None? ==>
                r == Err(Raise(serviceType, InvalidCell, BadRequest))
      ensures r.Ok? ==>
                spreadsheets[sheetId.value].rawValues
                  == old(spreadsheets[sheetId.value].rawValues)[parseCellId(cell.value).value := rawValue.value]
      ensures r.Err? && sheetId.Some? && sheetId.value in spreadsheets ==>
                spreadsheets[sheetId.value].rawValues == old(spreadsheets[sheetId.value].rawValues)
      ensures sheetId.Some? && sheetId.value in spreadsheets ==>
                spreadsheets[sheetId.value].sharedWith == old(spreadsheets[sheetId.value].sharedWith)
      ensures forall k :: k in spreadsheets && Some(k) != sheetId ==>
                spreadsheets[k].Snapshot() == old(spreadsheets[k].Snapshot())
    {
      if sheetId.None? || cell.None? || rawValue.None? || userId.None? || password.None? {
        return Err(Raise(serviceType, MalformedRequest, BadRequest));
      }
      var got := GetSpreadsheet(sheetId, userId, password, discovery, constructs, verifier);
      if got.Err? {
        return Err(got.failure);
      }
      var coordinates := parseCellId(cell.value);
      if coordinates.None? {
        return Err(Raise(serviceType, InvalidCell, BadRequest));
      }
      got.value.PlaceCellRawValue(coordinates.value.0, coordinates.value.1, rawValue.value);
      r := Ok(());
    }

    /** shareSpreadsheet, in its sharing-set behaviour. The id check, the
        sheet lookup and the owner's credential check are calls that are not
        part of this model: an unknown sheet fails with Unchecked and
        `ownerCheck(owner, password)` is the failure the credential check
        raises, if any. */
    method ShareSpreadsheet(sheetId: string, userId: string, password: string,
                            ownerCheck: (string, string) -> Option<Failure>)
      returns (r: Result<()>)
      requires Valid()
      modifies if sheetId in spreadsheets then {spreadsheets[sheetId]} else {}
      ensures spreadsheets == old(spreadsheets)
      ensures sheetId !in spreadsheets ==> r == Err(Unchecked)
      ensures sheetId in spreadsheets ==>
                var sheet := spreadsheets[sheetId];
                sheet.rawValues == old(sheet.rawValues)
                && (ownerCheck(sheet.owner, password).Some? ==>
                      r == Err(ownerCheck(sheet.owner, password).value) && sheet.sharedWith == old(sheet.sharedWith))
                && (ownerCheck(sheet.owner, password).None? && userId in old(sheet.sharedWith) ==>
                      r == Err(WebAppFault(Conflict)) && sheet.sharedWith == old(sheet.sharedWith))
                && (ownerCheck(sheet.owner, password).None? && userId !in old(sheet.sharedWith) ==>
                      r == Ok(()) && sheet.sharedWith == old(sheet.sharedWith) + {userId})
      ensures forall k :: k in spreadsheets && k != sheetId ==>
                spreadsheets[k].Snapshot() == old(spreadsheets[k].Snapshot())
    {
      if sheetId !in spreadsheets {
        return Err(Unchecked);
      }
      var sheet := spreadsheets[sheetId];
      var denied := ownerCheck(sheet.owner, password);
      if denied.Some? {
        return Err(denied.value);
      }
      if userId in sheet.sharedWith {
        return Err(WebAppFault(Conflict));
      }
      sheet.sharedWith := sheet.sharedWith + {userId};
      r := Ok(());
    }

    /** unshareSpreadsheet, in its sharing-set behaviour; the checks before it
        are as in ShareSpreadsheet. */
    method UnshareSpreadsheet(sheetId: string, userId: string, password: string,
                              ownerCheck: (string, string) -> Option<Failure>)
      returns (r: Result<()>)
      requires Valid()
      modifies if sheetId in spreadsheets then {spreadsheets[sheetId]} else {}
      ensures spreadsheets == old(spreadsheets)
      ensures sheetId !in spreadsheets ==> r == Err(Unchecked)
      ensures sheetId in spreadsheets ==>
                var sheet := spreadsheets[sheetId];
                sheet.rawValues == old(sheet.rawValues)
                && (ownerCheck(sheet.owner, password).Some? ==>
                      r == Err(ownerCheck(sheet.owner, password).value) && sheet.sharedWith == old(sheet.sharedWith))
                && (ownerCheck(sheet.owner, password).None? && userId !in old(sheet.sharedWith) ==>
                      r == Err(Raise(serviceType, NotSharing(userId), NotFound))
                      && sheet.sharedWith == old(sheet.sharedWith))
                && (ownerCheck(sheet.owner, password).None? && userId in old(sheet.sharedWith) ==>
                      r == Ok(()) && sheet.sharedWith == old(sheet.sharedWith) - {userId})
      ensures forall k :: k in spreadsheets && k != sheetId ==>
                spreadsheets[k].Snapshot() == old(spreadsheets[k].Snapshot())
    {
      if sheetId !in spreadsheets {
        return Err(Unchecked);
      }
      var sheet := spreadsheets[sheetId];
      var denied := ownerCheck(sheet.owner, password);
      if denied.Some? {
        return Err(denied.value);
      }
      if userId !in sheet.sharedWith {
        return Err(Raise(serviceType, NotSharing(userId), NotFound));
      }
      sheet.sharedWith := sheet.sharedWith - {userId};
      r := Ok(());
    }
  }

  /** Sharing with a user and then unsharing the same user leaves the sheet's
      sharing set as it was. */
  method ShareThenUnshare(res: SpreadsheetResource, sheetId: string, userId: string, password: string,
                          ownerCheck: (string, string) -> Option<Failure>)
    requires res.Valid() && sheetId in res.spreadsheets
    requires ownerCheck(res.spreadsheets[sheetId].owner, password).None?
    requires userId !in res.spreadsheets[sheetId].sharedWith
    modifies res.spreadsheets[sheetId]
    ensures res.spreadsheets[sheetId].Snapshot() == old(res.spreadsheets[sheetId].Snapshot())
  {
    var shared := res.ShareSpreadsheet(sheetId, userId, password, ownerCheck);
    assert shared == Ok(());
    var unshared := res.UnshareSpreadsheet(sheetId, userId, password, ownerCheck);
    assert unshared == Ok(());
  }


  /** Sharing a user twice: the second share is refused with CONFLICT, and
      either way the user ends up in the sharing set exactly once added. */
  method ShareTwiceConflicts(res: SpreadsheetResource, sheetId: string, userId: string, password: string,
                             ownerCheck: (string, string) -> Option<Failure>)
    returns (first: Result<()>, second: Result<()>)
    requires res.Valid() && sheetId in res.spreadsheets
    requires ownerCheck(res.spreadsheets[sheetId].owner, password).None?
    modifies res.spreadsheets[sheetId]
    ensures first == Ok(()) <==> userId !in old(res.spreadsheets[sheetId].sharedWith)
    ensures second == Err(WebAppFault(Conflict))
    ensures res.spreadsheets[sheetId].sharedWith == old(res.spreadsheets[sheetId].sharedWith) + {userId}
  {
    first := res.ShareSpreadsheet(sheetId, userId, password, ownerCheck);
    second := res.ShareSpreadsheet(sheetId, userId, password, ownerCheck);
  }

  /** The owner reads its own sheet only when listed in the sharing set. */
  lemma OwnerMustBeShared(res: SpreadsheetResource, sheetId: string, password: string,
                          client: Option<ApiClient>, verifier: (ApiClient, string, string) -> VerifyOutcome)
    requires sheetId in res.spreadsheets
    ensures var owner := res.spreadsheets[sheetId].owner;
            res.GetSpreadsheetWith(Some(sheetId), Some(owner), Some(password), client, verifier).Ok?
            ==> owner in res.spreadsheets[sheetId].sharedWith
  {
  }

  /** A requester in the sharing set but of another domain than the owner is
      refused by getSpreadsheet, whatever the users client, yet served by
      getReferencedSpreadsheetValues. */
  lemma ReferencedSkipsDomainCheck(res: SpreadsheetResource, sheetId: string, userId: string,
                                   password: string, range: string, client: Option<ApiClient>,
                                   verifier: (ApiClient, string, string) -> VerifyOutcome,
                                   engine: SheetData -> Option<Matrix>,
                                   extractRange: (string, Matrix) -> Option<Matrix>)
    requires sheetId in res.spreadsheets
    requires userId in res.spreadsheets[sheetId].sharedWith
    requires res.domainOf(userId) != res.domainOf(res.spreadsheets[sheetId].owner)
    requires engine(res.spreadsheets[sheetId].Snapshot()).Some?
    requires extractRange(range, engine(res.spreadsheets[sheetId].Snapshot()).value).Some?
    ensures res.GetSpreadsheetWith(Some(sheetId), Some(userId), Some(password), client, verifier)
            == Err(Raise(res.serviceType, NoReadPermission(userId), BadRequest))
    ensures res.GetReferencedSpreadsheetValues(Some(sheetId), Some(userId), Some(range), engine, extractRange).Ok?
  {
  }

  /** A request that fails before the credential check leaves cachedUserClient
      as it was; the first one that reaches it with a Users endpoint known
      and constructible fills it. */
  method FirstCheckFillsCache(res: SpreadsheetResource, sheetId: string, userId: string, password: string,
                              discovery: Discovery, constructs: string -> bool,
                              verifier: (ApiClient, string, string) -> VerifyOutcome)
    returns (r: Result<Spreadsheet>)
    requires res.cachedUserClient.None?
    requires res.ReachesOwnerCheck(Some(sheetId), Some(userId), Some(password))
    requires var known := discovery.KnownUrisOfService(res.domainId, UsersService);
             known.Some? && known.value != {} && forall u :: u in known.value ==> constructs(u)
    modifies res`cachedUserClient
    ensures res.cachedUserClient.Some?
    ensures res.cachedUserClient.value.serverUrl in discovery.KnownUrisOfService(res.domainId, UsersService).value
  {
    r := res.GetSpreadsheet(Some(sheetId), Some(userId), Some(password), discovery, constructs, verifier);
  }
}
