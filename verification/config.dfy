/** The configuration file's record (main.go:27-37), its reading at start-up
    (`readConfig`, main.go:76-98) and the rewrite of the last-seen id
    (`writeLastSeenID`, main.go:123-144). The YAML codec and the file system
    are not modelled: the file is given already decoded, or as the failure
    that reading or decoding it produced. */
module Config {

  import opened Wrappers
  import opened Enumeration

  /** One named group under `servers`. */
  datatype ServerConfig = ServerConfig(token: string, ntfyServer: string)

  /** The whole persisted record. `refreshInterval` is kept as the raw
      duration text. */
  datatype NtfyConfig = NtfyConfig(
    servers: map<string, ServerConfig>,
    lastSeenId: string,
    feedUrl: string,
    refreshInterval: string)

  /** The configuration file as one read finds it. */
  datatype ConfigFile = Unreadable | Unparsable | Parsed(config: NtfyConfig)

  datatype ConfigError = ReadError | ParseError | DurationError

  /** What `readConfig` hands to the poll loop. The interval is a signed
      count of nanoseconds, as Go's `time.Duration`. */
  datatype Settings = Settings(
    serverMap: map<string, string>,
    lastSeenId: string,
    feedUrl: string,
    refreshInterval: int)

  /** Group `order[i]` is the last one in `order` whose endpoint is `e`. */
  ghost predicate LastWithEndpoint(servers: map<string, ServerConfig>, order: seq<string>, i: int, e: string)
    requires forall k :: 0 <= k < |order| ==> order[k] in servers
  {
    && 0 <= i < |order|
    && servers[order[i]].ntfyServer == e
    && forall k :: i < k < |order| ==> servers[order[k]].ntfyServer != e
  }

  /** Group `order[i]` is the last one with endpoint `e` and its token is `token`. */
  ghost predicate Chosen(servers: map<string, ServerConfig>, order: seq<string>, i: int, e: string, token: string)
    requires forall k :: 0 <= k < |order| ==> order[k] in servers
  {
    LastWithEndpoint(servers, order, i, e) && servers[order[i]].token == token
  }

  /** The loop of main.go:87-90 over the groups in the visiting order
      `order`: every group writes its token under its endpoint, so when two
      groups share an endpoint the one visited later wins. */
  function Flatten(servers: map<string, ServerConfig>, order: seq<string>): (m: map<string, string>)
    requires forall k :: 0 <= k < |order| ==> order[k] in servers
    ensures |m| <= |order|
    decreases |order|
  {
    if |order| == 0 then map[]
    else
      var n := |order| - 1;
      var g := servers[order[n]];
      Flatten(servers, order[..n])[g.ntfyServer := g.token]
  }

  /** The endpoints of the flattened map are exactly those of the visited groups. */
  lemma {:induction false} FlattenKeys(servers: map<string, ServerConfig>, order: seq<string>)
    requires forall k :: 0 <= k < |order| ==> order[k] in servers
    ensures forall e :: e in Flatten(servers, order) <==> exists i :: 0 <= i < |order| && servers[order[i]].ntfyServer == e
    decreases |order|
  {
    if |order| > 0 {
      var n := |order| - 1;
      var prefix := order[..n];
      FlattenKeys(servers, prefix);
      forall e | (exists i :: 0 <= i < |order| && servers[order[i]].ntfyServer == e)
        ensures e in Flatten(servers, order)
      {
        var i :| 0 <= i < |order| && servers[order[i]].ntfyServer == e;
        if i < n {
          assert prefix[i] == order[i];
        }
      }
      forall e | e in Flatten(servers, prefix)
        ensures exists i :: 0 <= i < |order| && servers[order[i]].ntfyServer == e
      {
        var i :| 0 <= i < |prefix| && servers[prefix[i]].ntfyServer == e;
        assert order[i] == prefix[i];
      }
    }
  }

  /** A group that was last with its endpoint in a prefix stays last when a
      group with another endpoint is visited after it. */
  lemma StillLast(servers: map<string, ServerConfig>, order: seq<string>, i: int, e: string)
    requires |order| > 0
    requires forall k :: 0 <= k < |order| ==> order[k] in servers
    requires LastWithEndpoint(servers, order[..|order| - 1], i, e)
    requires servers[order[|order| - 1]].ntfyServer != e
    ensures LastWithEndpoint(servers, order, i, e)
  {
  }

  /** Every endpoint carries the token of the last visited group that names it. */
  lemma {:induction false} FlattenLastWins(servers: map<string, ServerConfig>, order: seq<string>)
    requires forall k :: 0 <= k < |order| ==> order[k] in servers
    ensures forall e :: e in Flatten(servers, order) ==>
      exists i :: Chosen(servers, order, i, e, Flatten(servers, order)[e])
    decreases |order|
  {
    if |order| > 0 {
      var n := |order| - 1;
      var prefix := order[..n];
      var g := servers[order[n]];
      var m0 := Flatten(servers, prefix);
      var m := Flatten(servers, order);
      assert m == m0[g.ntfyServer := g.token];
      FlattenLastWins(servers, prefix);
      forall e | e in m
        ensures exists i :: Chosen(servers, order, i, e, m[e])
      {
        if e == g.ntfyServer {
          assert Chosen(servers, order, n, e, m[e]);
        } else {
          assert e in m0;
          var i :| Chosen(servers, prefix, i, e, m0[e]);
          StillLast(servers, order, i, e);
          assert prefix[i] == order[i];
          assert Chosen(servers, order, i, e, m[e]);
        }
      }
    }
  }

  /** The endpoint-to-token map built from every configured group, in the
      order Go's map iteration happened to visit them: each group's endpoint
      is a key, each key is some group's endpoint carrying that group's
      token, and there are no more keys than groups. */
  lemma {:induction false} ServerMapFromGroups(servers: map<string, ServerConfig>, order: seq<string>)
    requires Enumerates(order, servers.Keys)
    ensures forall name :: name in servers ==> servers[name].ntfyServer in Flatten(servers, order)
    ensures forall e :: e in Flatten(servers, order) ==>
      exists name :: name in servers && servers[name] == ServerConfig(Flatten(servers, order)[e], e)
    ensures |Flatten(servers, order)| <= |servers|
  {
    var m := Flatten(servers, order);
    FlattenKeys(servers, order);
    FlattenLastWins(servers, order);
    forall name | name in servers ensures servers[name].ntfyServer in m {
      var i :| 0 <= i < |order| && order[i] == name;
    }
    forall e | e in m ensures exists name :: name in servers && servers[name] == ServerConfig(m[e], e) {
      var i :| Chosen(servers, order, i, e, m[e]);
      assert servers[order[i]] == ServerConfig(m[e], e);
    }
    EnumerationLength(order, servers.Keys);
  }

  /** No two groups name the same endpoint. */
  ghost predicate DistinctEndpoints(servers: map<string, ServerConfig>)
  {
    forall a, b :: a in servers && b in servers && a != b ==> servers[a].ntfyServer != servers[b].ntfyServer
  }

  /** An endpoint is a key of the flattened map exactly when some group names it. */
  lemma FlattenKeysFromGroups(servers: map<string, ServerConfig>, order: seq<string>, e: string)
    requires Enumerates(order, servers.Keys)
    ensures e in Flatten(servers, order) <==> exists name :: name in servers && servers[name].ntfyServer == e
  {
    ServerMapFromGroups(servers, order);
    if e in Flatten(servers, order) {
      var name :| name in servers && servers[name] == ServerConfig(Flatten(servers, order)[e], e);
    }
  }

  /** When no endpoint is shared, each group's endpoint carries its own token. */
  lemma TokenOfGroup(servers: map<string, ServerConfig>, order: seq<string>, name: string)
    requires Enumerates(order, servers.Keys)
    requires DistinctEndpoints(servers)
    requires name in servers
    ensures var m := Flatten(servers, order);
      servers[name].ntfyServer in m && m[servers[name].ntfyServer] == servers[name].token
  {
    ServerMapFromGroups(servers, order);
    var m := Flatten(servers, order);
    var e := servers[name].ntfyServer;
    var other :| other in servers && servers[other] == ServerConfig(m[e], e);
    assert other == name;
  }

  /** Two visits of the same groups in different orders agree on the set of
      endpoints, and on every token when no endpoint is shared; only a
      shared endpoint lets the visiting order decide which token survives. */
  lemma {:induction false} FlattenOrderIndependent(servers: map<string, ServerConfig>, order1: seq<string>, order2: seq<string>)
    requires Enumerates(order1, servers.Keys)
    requires Enumerates(order2, servers.Keys)
    ensures Flatten(servers, order1).Keys == Flatten(servers, order2).Keys
    ensures DistinctEndpoints(servers) ==> Flatten(servers, order1) == Flatten(servers, order2)
  {
    var m1 := Flatten(servers, order1);
    var m2 := Flatten(servers, order2);
    forall e ensures e in m1 <==> e in m2 {
      FlattenKeysFromGroups(servers, order1, e);
      FlattenKeysFromGroups(servers, order2, e);
    }
    assert m1.Keys == m2.Keys;
    if DistinctEndpoints(servers) {
      forall e | e in m1 ensures m1[e] == m2[e] {
        FlattenKeysFromGroups(servers, order1, e);
        var name :| name in servers && servers[name].ntfyServer == e;
        TokenOfGroup(servers, order1, name);
        TokenOfGroup(servers, order2, name);
      }
      assert m1 == m2;
    }
  }

  /** `readConfig`: a file that cannot be read or decoded, or whose interval
      `parseDuration` rejects, is an error; otherwise the flattened server
      map and the three scalar fields. */
  function ReadConfig(file: ConfigFile, order: seq<string>, parseDuration: string -> Option<int>): (r: Result<Settings, ConfigError>)
    requires file.Parsed? ==> Enumerates(order, file.config.servers.Keys)
    ensures file.Unreadable? <==> r == Failure(ReadError)
    ensures file.Unparsable? <==> r == Failure(ParseError)
    ensures r.Success? <==> file.Parsed? && parseDuration(file.config.refreshInterval).Some?
    ensures r.Success? ==>
      && r.value.lastSeenId == file.config.lastSeenId
      && r.value.feedUrl == file.config.feedUrl
      && Some(r.value.refreshInterval) == parseDuration(file.config.refreshInterval)
      && r.value.serverMap == Flatten(file.config.servers, order)
  {
    match file
    case Unreadable => Failure(ReadError)
    case Unparsable => Failure(ParseError)
    case Parsed(config) =>
      var serverMap := Flatten(config.servers, order);
      match parseDuration(config.refreshInterval)
      case None => Failure(DurationError)
      case Some(interval) => Success(Settings(serverMap, config.lastSeenId, config.feedUrl, interval))
  }

  /** The field update at main.go:134: the record with a new last-seen id. */
  function WithLastSeenId(config: NtfyConfig, id: string): (r: NtfyConfig)
    ensures r.lastSeenId == id
    ensures r.servers == config.servers && r.feedUrl == config.feedUrl && r.refreshInterval == config.refreshInterval
  {
    config.(lastSeenId := id)
  }

  /** The outcome of one `writeLastSeenID`: the record written back, or the
      process ending through `log.Fatal`. */
  datatype Persisted = Written(config: NtfyConfig) | Fatal(cause: ConfigError)

  /** `writeLastSeenID`: read the file afresh, change only the last-seen id,
      write the whole record back. A file that cannot be read or decoded
      ends the process. */
  function WriteLastSeenId(file: ConfigFile, id: string): (p: Persisted)
    ensures p.Written? <==> file.Parsed?
    ensures p.Written? ==>
      && p.config.lastSeenId == id
      && p.config.servers == file.config.servers
      && p.config.feedUrl == file.config.feedUrl
      && p.config.refreshInterval == file.config.refreshInterval
  {
    match file
    case Unreadable => Fatal(ReadError)
    case Unparsable => Fatal(ParseError)
    case Parsed(config) => Written(WithLastSeenId(config, id))
  }

  /** Persisting an id and reading the file back, as a restart does, yields
      that id with the same feed URL, interval and endpoints as a read before
      the write, even though the re-read may visit the groups in another
      order; the tokens agree as well unless two groups share an endpoint.
      A read that failed before fails the same way after. */
  lemma PersistThenRead(config: NtfyConfig, id: string, order1: seq<string>, order2: seq<string>,
                        parseDuration: string -> Option<int>)
    requires Enumerates(order1, config.servers.Keys)
    requires Enumerates(order2, config.servers.Keys)
    ensures var p := WriteLastSeenId(Parsed(config), id);
      && p.Written?
      && var before := ReadConfig(Parsed(config), order1, parseDuration);
         var after := ReadConfig(Parsed(p.config), order2, parseDuration);
         && (after.Failure? <==> before.Failure?)
         && (after.Failure? ==> after == before)
         && (after.Success? ==>
              && after.value.lastSeenId == id
              && after.value.feedUrl == before.value.feedUrl
              && after.value.refreshInterval == before.value.refreshInterval
              && after.value.serverMap.Keys == before.value.serverMap.Keys
              && (DistinctEndpoints(config.servers) ==> after.value.serverMap == before.value.serverMap))
  {
    FlattenOrderIndependent(config.servers, order1, order2);
  }

  /** A second write replaces the first entirely. */
  lemma WriteTwice(config: NtfyConfig, first: string, second: string)
    ensures var p := WriteLastSeenId(Parsed(config), first);
      p.Written? && WriteLastSeenId(Parsed(p.config), second) == WriteLastSeenId(Parsed(config), second)
  {
  }
}
