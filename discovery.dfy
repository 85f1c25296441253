/** Service discovery: the announcement datagram "domain:service<TAB>uri", its
    decoding with Java's String.split, and the registry of announced endpoints
    that one receive step of the collector updates. */
module ServiceDiscovery {
  import opened Common

  const Tab: char := '\t'
  const DomainDelimiter: string := ":"

  /** The text of the datagram startSendingAnnouncements broadcasts. */
  function Announcement(domainId: string, serviceName: string, serviceUri: string): (m: string)
    ensures |m| == |domainId| + |serviceName| + |serviceUri| + 2
    ensures m[..|domainId|] == domainId && m[|domainId|] == ':'
    ensures m[|domainId| + 1..|domainId| + 1 + |serviceName|] == serviceName
    ensures m[|domainId| + 1 + |serviceName|] == Tab
    ensures m[|domainId| + 2 + |serviceName|..] == serviceUri
  {
    domainId + DomainDelimiter + serviceName + [Tab] + serviceUri
  }

  /** `n` tab characters. */
  function Tabs(n: nat): (t: string)
    ensures |t| == n && forall i :: 0 <= i < n ==> t[i] == Tab
  {
    seq(n, _ => Tab)
  }

  /** `n` empty fields. */
  function Empties(n: nat): (e: seq<string>)
    ensures |e| == n && forall i :: 0 <= i < n ==> e[i] == ""
  {
    seq(n, _ => "")
  }

  /** The position of the first `c` in `s`. */
  function IndexOf(s: string, c: char): (i: nat)
    requires c in s
    ensures i < |s| && s[i] == c && c !in s[..i]
  {
    if s[0] == c then 0
    else
      var j := IndexOf(s[1..], c);
      assert s[..j + 1] == [s[0]] + s[1..][..j];
      j + 1
  }

  /** Any position of `c` with no `c` before it is the first one. */
  lemma IndexOfIsFirst(s: string, c: char, k: nat)
    requires k < |s| && s[k] == c && c !in s[..k]
    ensures c in s && IndexOf(s, c) == k
  {
    var i := IndexOf(s, c);
  }

  /** Every field between occurrences of `c`, empty ones included. */
  function SplitAll(s: string, c: char): (fields: seq<string>)
    ensures |fields| >= 1
    ensures forall k :: 0 <= k < |fields| ==> c !in fields[k]
    decreases |s|
  {
    if c in s then
      var i := IndexOf(s, c);
      [s[..i]] + SplitAll(s[i + 1..], c)
    else [s]
  }

  /** The longest prefix of `fields` after which every field is empty. */
  function DropTrailingEmpty(fields: seq<string>): (r: seq<string>)
    ensures |r| <= |fields| && r == fields[..|r|]
    ensures |r| > 0 ==> r[|r| - 1] != ""
    ensures forall k :: |r| <= k < |fields| ==> fields[k] == ""
  {
    if |fields| == 0 then []
    else if fields[|fields| - 1] == "" then DropTrailingEmpty(fields[..|fields| - 1])
    else fields
  }

  /** Java's `s.split(d)` for a one-character delimiter `d` that is not a
      regular-expression metacharacter: the input itself when `d` does not
      occur, otherwise every field with the trailing empty ones removed. */
  function JavaSplit(s: string, c: char): (r: seq<string>)
    ensures c !in s ==> r == [s]
    ensures c in s ==>
              var all := SplitAll(s, c);
              |r| <= |all| && r == all[..|r|]
              && (|r| > 0 ==> r[|r| - 1] != "")
              && forall k :: |r| <= k < |all| ==> all[k] == ""
    ensures forall k :: 0 <= k < |r| ==> c !in r[k]
  {
    if c !in s then [s] else DropTrailingEmpty(SplitAll(s, c))
  }

  /** The collector's test of a received message: split on tab, accept exactly
      two fields, the registry key and the endpoint. */
  function Decode(msg: string): (d: Option<(string, string)>)
    ensures d.Some? ==> Tab !in d.value.0 && Tab !in d.value.1 && d.value.1 != ""
  {
    var fields := JavaSplit(msg, Tab);
    if |fields| == 2 then Some((fields[0], fields[1])) else None
  }

  /** Splitting `m` tabs gives `m + 1` empty fields. */
  lemma {:induction false} SplitAllTabs(m: nat)
    ensures SplitAll(Tabs(m), Tab) == Empties(m + 1)
  {
    if m > 0 {
      IndexOfIsFirst(Tabs(m), Tab, 0);
      assert Tabs(m)[1..] == Tabs(m - 1);
      SplitAllTabs(m - 1);
      assert Empties(m + 1) == [""] + Empties(m);
    }
  }

  /** A tab-free field followed by `m` tabs splits into that field and `m` empty ones. */
  lemma SplitAllField(b: string, m: nat)
    requires Tab !in b
    ensures SplitAll(b + Tabs(m), Tab) == [b] + Empties(m)
  {
    var s := b + Tabs(m);
    if m == 0 {
      assert s == b;
    } else {
      assert s[..|b|] == b;
      IndexOfIsFirst(s, Tab, |b|);
      assert s[|b| + 1..] == Tabs(m - 1);
      SplitAllTabs(m - 1);
    }
  }

  /** Trailing empty fields are exactly what DropTrailingEmpty removes. */
  lemma {:induction false} DropEmpties(xs: seq<string>, m: nat)
    requires |xs| > 0 && xs[|xs| - 1] != ""
    ensures DropTrailingEmpty(xs + Empties(m)) == xs
  {
    if m == 0 {
      assert xs + Empties(0) == xs;
    } else {
      var ys := xs + Empties(m);
      assert ys[..|ys| - 1] == xs + Empties(m - 1);
      DropEmpties(xs, m - 1);
    }
  }

  /** A tab-free first field is split off on its own. */
  lemma SplitAllCons(a: string, rest: string)
    requires Tab !in a
    ensures SplitAll(a + [Tab] + rest, Tab) == [a] + SplitAll(rest, Tab)
  {
    var s := a + [Tab] + rest;
    assert s[..|a|] == a;
    IndexOfIsFirst(s, Tab, |a|);
    assert s[|a| + 1..] == rest;
  }

  /** Two tab-free fields followed by `n` tabs split into those fields and
      `n` empty ones. */
  lemma SplitAllTwo(b: string, c: string, n: nat)
    requires Tab !in b && Tab !in c
    ensures SplitAll(b + [Tab] + (c + Tabs(n)), Tab) == [b, c] + Empties(n)
  {
    var t := c + Tabs(n);
    SplitAllField(c, n);
    SplitAllCons(b, t);
    assert [b] + ([c] + Empties(n)) == [b, c] + Empties(n);
  }

  /** A message "a<TAB>b" followed by any number of tabs is accepted as (a, b):
      String.split drops the trailing empty fields. */
  lemma DecodeWithTrailingTabs(a: string, b: string, n: nat)
    requires Tab !in a && Tab !in b && b != ""
    ensures Decode(a + [Tab] + b + Tabs(n)) == Some((a, b))
  {
    var s := a + [Tab] + b + Tabs(n);
    assert s == a + [Tab] + (b + Tabs(n));
    assert s[|a|] == Tab;
    SplitAllTwo(a, b, n);
    DropEmpties([a, b], n);
    assert JavaSplit(s, Tab) == [a, b];
  }

  /** Round trip: the collector decodes an announcement into the key
      "domain:service" and the announced endpoint. */
  lemma DecodeAnnouncement(domainId: string, serviceName: string, serviceUri: string)
    requires Tab !in domainId && Tab !in serviceName && Tab !in serviceUri && serviceUri != ""
    ensures Decode(Announcement(domainId, serviceName, serviceUri))
            == Some((domainId + DomainDelimiter + serviceName, serviceUri))
  {
    var key := domainId + DomainDelimiter + serviceName;
    assert Tab !in key;
    assert Announcement(domainId, serviceName, serviceUri) == key + [Tab] + serviceUri + Tabs(0);
    DecodeWithTrailingTabs(key, serviceUri, 0);
  }

  /** An announcement with an empty endpoint is discarded: its only non-empty
      field is the key. */
  lemma DecodeRejectsEmptyUri(a: string, n: nat)
    requires Tab !in a
    ensures Decode(a + Tabs(n + 1)) == None
  {
    var s := a + Tabs(n + 1);
    assert s[..|a|] == a;
    IndexOfIsFirst(s, Tab, |a|);
    assert s[|a| + 1..] == Tabs(n);
    SplitAllTabs(n);
    assert SplitAll(s, Tab) == [a] + Empties(n + 1);
  }

  /** Three tab-free fields followed by `n` tabs split into those fields and
      `n` empty ones. */
  lemma SplitAllThree(a: string, b: string, c: string, n: nat)
    requires Tab !in a && Tab !in b && Tab !in c
    ensures SplitAll(a + [Tab] + (b + [Tab] + (c + Tabs(n))), Tab) == [a, b, c] + Empties(n)
  {
    var u := b + [Tab] + (c + Tabs(n));
    SplitAllTwo(b, c, n);
    SplitAllCons(a, u);
    assert [a] + ([b, c] + Empties(n)) == [a, b, c] + Empties(n);
  }

  /** A message with a third non-empty field is discarded. */
  lemma DecodeRejectsExtraField(a: string, b: string, c: string, n: nat)
    requires Tab !in a && Tab !in b && Tab !in c && c != ""
    ensures Decode(a + [Tab] + b + [Tab] + c + Tabs(n)) == None
  {
    var s := a + [Tab] + b + [Tab] + c + Tabs(n);
    assert s == a + [Tab] + (b + [Tab] + (c + Tabs(n)));
    SplitAllThree(a, b, c, n);
    DropEmpties([a, b, c], n);
    assert s[|a|] == Tab;
    assert JavaSplit(s, Tab) == [a, b, c];
  }

  /** The fields joined back with the delimiter. */
  function Join(fields: seq<string>, c: char): string
    requires |fields| >= 1
  {
    if |fields| == 1 then fields[0] else fields[0] + [c] + Join(fields[1..], c)
  }

  /** Splitting loses nothing: joining the fields gives the input back. */
  lemma {:induction false} SplitJoin(s: string, c: char)
    ensures Join(SplitAll(s, c), c) == s
    decreases |s|
  {
    if c in s {
      var i := IndexOf(s, c);
      SplitJoin(s[i + 1..], c);
      assert s == s[..i] + [c] + s[i + 1..];
    }
  }

  /** Joining a field with `m` empty fields appends `m` delimiters. */
  lemma {:induction false} JoinEmpties(u: string, m: nat)
    ensures Join([u] + Empties(m), Tab) == u + Tabs(m)
    decreases m
  {
    if m == 0 {
      assert [u] + Empties(0) == [u];
    } else {
      JoinEmpties("", m - 1);
      assert ([u] + Empties(m))[1..] == [""] + Empties(m - 1);
      assert Tabs(m) == [Tab] + Tabs(m - 1);
    }
  }

  /** Exactly the messages "k<TAB>u" followed by zero or more tabs, with `k`
      and `u` tab-free and `u` non-empty, are accepted, and as (k, u). */
  lemma DecodeExactly(msg: string, k: string, u: string)
    ensures Decode(msg) == Some((k, u)) <==>
              Tab !in k && Tab !in u && u != "" && exists n: nat :: msg == k + [Tab] + u + Tabs(n)
  {
    if Decode(msg) == Some((k, u)) {
      var fields := SplitAll(msg, Tab);
      var m := |fields| - 2;
      assert fields[..2] == [k, u];
      assert fields[2..] == Empties(m);
      assert fields == [k] + ([u] + Empties(m));
      SplitJoin(msg, Tab);
      JoinEmpties(u, m);
      assert msg == k + [Tab] + u + Tabs(m);
    }
    if Tab !in k && Tab !in u && u != "" && exists n: nat :: msg == k + [Tab] + u + Tabs(n) {
      var n: nat :| msg == k + [Tab] + u + Tabs(n);
      DecodeWithTrailingTabs(k, u, n);
    }
  }

  /** What one step of the collector loop did with a datagram. */
  datatype ReceiveOutcome =
    | Ignored         // not exactly two fields: discarded
    | Registered      // endpoint added under its key, timestamp refreshed
    | CollectorDied   // URI.create rejected the endpoint: the collector thread ends

  class Discovery {
    const domainId: string
    const serviceName: string
    const serviceUri: string
    /** Announced endpoints by "domain:service" key. */
    var servers: map<string, set<string>>
    /** Time of the last accepted announcement per key; nothing reads it. */
    var timeStamps: map<string, int>
    /** The collector thread has ended on an uncaught exception. */
    var collectorDead: bool

    constructor (domainId: string, serviceName: string, serviceUri: string)
      ensures this.domainId == domainId && this.serviceName == serviceName && this.serviceUri == serviceUri
      ensures servers == map[] && timeStamps == map[] && !collectorDead
    {
      this.domainId := domainId;
      this.serviceName := serviceName;
      this.serviceUri := serviceUri;
      servers := map[];
      timeStamps := map[];
      collectorDead := false;
    }

    /** One iteration of the collector loop on the decoded datagram `msg`
        received at time `now`; `isUri` says which strings URI.create accepts.
        The key's set is created before the endpoint is parsed, so a rejected
        endpoint leaves the key with the set it had, possibly a new empty one;
        the IllegalArgumentException is not an IOException and ends the thread. */
    method Receive(msg: string, now: int, isUri: string -> bool) returns (outcome: ReceiveOutcome)
      modifies this
      ensures collectorDead == (old(collectorDead) || outcome == CollectorDied)
      ensures old(collectorDead) || Decode(msg).None? ==>
                outcome == Ignored && servers == old(servers) && timeStamps == old(timeStamps)
      ensures !old(collectorDead) && Decode(msg).Some? ==>
                var key, uri := Decode(msg).value.0, Decode(msg).value.1;
                var prior := if key in old(servers) then old(servers)[key] else {};
                if isUri(uri) then
                  outcome == Registered && servers == old(servers)[key := prior + {uri}]
                  && timeStamps == old(timeStamps)[key := now]
                else
                  outcome == CollectorDied && servers == old(servers)[key := prior]
                  && timeStamps == old(timeStamps)
      ensures forall k :: k in old(servers) ==> k in servers && old(servers)[k] <= servers[k]
    {
      if collectorDead {
        return Ignored;
      }
      var msgElems := JavaSplit(msg, Tab);
      if |msgElems| != 2 {
        return Ignored;
      }
      var sn, su := msgElems[0], msgElems[1];
      if sn !in servers {
        servers := servers[sn := {}];
      }
      if !isUri(su) {
        collectorDead := true;
        return CollectorDied;
      }
      servers := servers[sn := servers[sn] + {su}];
      timeStamps := timeStamps[sn := now];
      outcome := Registered;
    }

    /** The endpoints announced under "domain:service", or null. */
    function KnownUrisOfService(domain: string, service: string): (r: Option<set<string>>)
      reads this
      ensures r.Some? <==> domain + DomainDelimiter + service in servers
      ensures r.Some? ==> r.value == servers[domain + DomainDelimiter + service]
    {
      var key := domain + DomainDelimiter + service;
      if key in servers then Some(servers[key]) else None
    }

    /** knownUrisOf as written: it looks up the instance's own service name,
        whatever `service` the caller asks for. */
    function KnownUrisOf(domain: string, service: string): (r: Option<set<string>>)
      reads this
      ensures r == KnownUrisOfService(domain, serviceName)
    {
      var key := domain + DomainDelimiter + serviceName;
      if key in servers then Some(servers[key]) else None
    }
  }

  /** A spreadsheet server's registry (service name "SpreadsheetsService") that
      has heard only a Users server of domain "d" answers knownUrisOf("d",
      "UsersService") with null, although that service was announced. */
  lemma KnownUrisOfMissesOtherService(disc: Discovery)
    requires disc.serviceName == "SpreadsheetsService"
    requires disc.servers == map["d:UsersService" := {"http://u:8080/rest"}]
    ensures disc.KnownUrisOf("d", "UsersService") == None
    ensures disc.KnownUrisOfService("d", "UsersService") == Some({"http://u:8080/rest"})
  {
    assert ("d" + DomainDelimiter + "SpreadsheetsService")[2] == 'S';
    assert "d" + DomainDelimiter + "UsersService" == "d:UsersService";
  }

  /** An announcement of (domain, service, uri) received by a live collector
      makes uri resolvable under (domain, service); what was known stays known. */
  method AnnouncedIsResolvable(disc: Discovery, domain: string, service: string, uri: string,
                               now: int, isUri: string -> bool)
    requires Tab !in domain && Tab !in service && Tab !in uri && uri != "" && isUri(uri)
    requires !disc.collectorDead
    modifies disc
    ensures !disc.collectorDead
    ensures disc.KnownUrisOfService(domain, service).Some?
    ensures uri in disc.KnownUrisOfService(domain, service).value
    ensures old(disc.KnownUrisOfService(domain, service)).Some? ==>
              old(disc.KnownUrisOfService(domain, service)).value <= disc.KnownUrisOfService(domain, service).value
  {
    DecodeAnnouncement(domain, service, uri);
    var outcome := disc.Receive(Announcement(domain, service, uri), now, isUri);
  }

  /** Two endpoints announced for the same domain and service are both kept. */
  method BothEndpointsKept(disc: Discovery, domain: string, service: string, u1: string, u2: string,
                           t1: int, t2: int, isUri: string -> bool)
    requires Tab !in domain && Tab !in service && Tab !in u1 && Tab !in u2
    requires u1 != "" && u2 != "" && isUri(u1) && isUri(u2)
    requires !disc.collectorDead
    modifies disc
    ensures disc.KnownUrisOfService(domain, service).Some?
    ensures {u1, u2} <= disc.KnownUrisOfService(domain, service).value
  {
    AnnouncedIsResolvable(disc, domain, service, u1, t1, isUri);
    AnnouncedIsResolvable(disc, domain, service, u2, t2, isUri);
  }
}
