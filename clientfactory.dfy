/** Building a client for a discovered endpoint: the transport is chosen by the
    URL, and spreadsheet clients of remote domains are cached per domain. */
module ClientFactory {
  import opened Common
  import opened ServiceDiscovery

  /** SpreadsheetApiClient.SERVICE and UsersApiClient.SERVICE. */
  const SpreadsheetsService: string := "SpreadsheetsService"
  const UsersService: string := "UsersService"

  /** The two client implementations of each API. */
  datatype Transport = RestTransport | SoapTransport

  /** A client bound to one server URL. */
  datatype ApiClient = ApiClient(transport: Transport, serverUrl: string)

  /** A URL containing "/rest" gets the REST client, any other the SOAP client. */
  function TransportFor(url: string): (t: Transport)
    ensures t == RestTransport <==> IsSubstring("/rest", url)
    ensures t == SoapTransport <==> !IsSubstring("/rest", url)
  {
    if Contains(url, "/rest") then RestTransport else SoapTransport
  }

  /** Pick any known endpoint (Stream.findAny) and construct a client for it.
      `constructs` says which URLs the client constructors accept; a
      constructor that throws is caught and leaves no client. */
  method Build(uris: set<string>, constructs: string -> bool) returns (c: Option<ApiClient>)
    ensures uris == {} ==> c.None?
    ensures uris != {} && (forall u :: u in uris ==> constructs(u)) ==> c.Some?
    ensures c.Some? ==> c.value.serverUrl in uris && constructs(c.value.serverUrl)
                        && c.value.transport == TransportFor(c.value.serverUrl)
  {
    if uris == {} {
      return None;
    }
    var url :| url in uris;
    if !constructs(url) {
      return None;
    }
    c := Some(ApiClient(TransportFor(url), url));
  }

  /** The static map cachedSpreadSheetClients of SpreadsheetResource: remote
      spreadsheet clients by domain. */
  class RemoteSpreadsheetClients {
    var cached: map<string, ApiClient>

    constructor ()
      ensures cached == map[]
    {
      cached := map[];
    }

    /** A client is cached only for a URL that was known for its domain. */
    ghost predicate Valid(discovery: Discovery)
      reads this, discovery
    {
      forall d :: d in cached ==>
        discovery.KnownUrisOfService(d, SpreadsheetsService).Some?
        && cached[d].serverUrl in discovery.KnownUrisOfService(d, SpreadsheetsService).value
        && cached[d].transport == TransportFor(cached[d].serverUrl)
    }

    /** getRemoteSpreadsheetClient as written: a cached domain is answered
        from the cache; otherwise the endpoints known for the domain are read
        with knownUrisOf, whose null result is dereferenced at once. */
    method GetRemoteSpreadsheetClient(discovery: Discovery, domainId: string, constructs: string -> bool)
      returns (r: Result<Option<ApiClient>>)
      modifies this
      ensures domainId in old(cached) ==> r == Ok(Some(old(cached)[domainId])) && cached == old(cached)
      ensures domainId !in old(cached) && discovery.KnownUrisOf(domainId, SpreadsheetsService).None? ==>
                r == Err(NullPointer) && cached == old(cached)
      ensures domainId !in old(cached) && discovery.KnownUrisOf(domainId, SpreadsheetsService).Some? ==>
                r.Ok?
                && (r.value.None? ==> cached == old(cached))
                && (r.value.Some? ==>
                      cached == old(cached)[domainId := r.value.value]
                      && r.value.value.serverUrl in discovery.KnownUrisOf(domainId, SpreadsheetsService).value
                      && r.value.value.transport == TransportFor(r.value.value.serverUrl))
      ensures domainId !in old(cached) && discovery.KnownUrisOf(domainId, SpreadsheetsService).Some?
              && discovery.KnownUrisOf(domainId, SpreadsheetsService).value != {}
              && (forall u :: u in discovery.KnownUrisOf(domainId, SpreadsheetsService).value ==> constructs(u)) ==>
                r.Ok? && r.value.Some?
    {
      if domainId in cached {
        return Ok(Some(cached[domainId]));
      }
      var known := discovery.KnownUrisOf(domainId, SpreadsheetsService);
      if known.None? {
        return Err(NullPointer);
      }
      var client := Build(known.value, constructs);
      if client.Some? {
        cached := cached[domainId := client.value];
      }
      r := Ok(client);
    }

    /** getRemoteSpreadsheetClient as intended: the endpoints announced for
        (domainId, SpreadsheetsService), and null with nothing cached when
        none is known. */
    method GetRemoteSpreadsheetClientOrNull(discovery: Discovery, domainId: string, constructs: string -> bool)
      returns (c: Option<ApiClient>)
      requires Valid(discovery)
      modifies this
      ensures Valid(discovery)
      ensures domainId in old(cached) ==> c == Some(old(cached)[domainId]) && cached == old(cached)
      ensures domainId !in old(cached) && discovery.KnownUrisOfService(domainId, SpreadsheetsService).None? ==>
                c.None? && cached == old(cached)
      ensures domainId !in old(cached) && c.None? ==> cached == old(cached)
      ensures domainId !in old(cached) && c.Some? ==> cached == old(cached)[domainId := c.value]
      ensures c.Some? ==> c.value.transport == TransportFor(c.value.serverUrl)
                          && c.value.serverUrl in discovery.KnownUrisOfService(domainId, SpreadsheetsService).value
      ensures domainId !in old(cached) && discovery.KnownUrisOfService(domainId, SpreadsheetsService).Some?
              && discovery.KnownUrisOfService(domainId, SpreadsheetsService).value != {}
              && (forall u :: u in discovery.KnownUrisOfService(domainId, SpreadsheetsService).value ==> constructs(u)) ==>
                c.Some?
    {
      if domainId in cached {
        return Some(cached[domainId]);
      }
      var known := discovery.KnownUrisOfService(domainId, SpreadsheetsService);
      if known.None? {
        return None;
      }
      c := Build(known.value, constructs);
      if c.Some? {
        cached := cached[domainId := c.value];
      }
    }
  }

  /** A collector step never invalidates the cache: it keeps every key of
      the registry and only grows their sets, so the requirement of
      GetRemoteSpreadsheetClientOrNull survives every Receive. */
  method ReceiveKeepsValid(clients: RemoteSpreadsheetClients, disc: Discovery,
                           msg: string, now: int, isUri: string -> bool)
    returns (outcome: ReceiveOutcome)
    requires clients.Valid(disc)
    modifies disc
    ensures clients.Valid(disc)
  {
    outcome := disc.Receive(msg, now, isUri);
  }

  /** A spreadsheet server that has heard of no server of domain "far" fails
      with NullPointerException when asked for a client of "far", where the
      intended answer is null. */
  method UnknownDomainDereferencesNull(constructs: string -> bool)
    returns (asWritten: Result<Option<ApiClient>>, intended: Option<ApiClient>)
    ensures asWritten == Err(NullPointer)
    ensures intended.None?
  {
    var disc := new Discovery("local", SpreadsheetsService, "http://local:8080/soap");
    var clients := new RemoteSpreadsheetClients();
    asWritten := clients.GetRemoteSpreadsheetClient(disc, "far", constructs);
    var clients2 := new RemoteSpreadsheetClients();
    intended := clients2.GetRemoteSpreadsheetClientOrNull(disc, "far", constructs);
    assert clients2.cached == map[];
  }

  /** Once a domain is cached, the cached client is returned whatever the
      registry now holds. */
  method CachedClientIsStable(clients: RemoteSpreadsheetClients, d1: Discovery, d2: Discovery,
                              domainId: string, constructs: string -> bool)
    returns (first: Result<Option<ApiClient>>, second: Result<Option<ApiClient>>)
    requires domainId in clients.cached
    modifies clients
    ensures clients.cached == old(clients.cached)
    ensures domainId in clients.cached && first == second == Ok(Some(clients.cached[domainId]))
  {
    first := clients.GetRemoteSpreadsheetClient(d1, domainId, constructs);
    second := clients.GetRemoteSpreadsheetClient(d2, domainId, constructs);
  }
}
