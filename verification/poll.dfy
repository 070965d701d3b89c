/** The poll loop of `main` (main.go:146-160), one iteration at a time. The
    sleep between iterations is not modelled; the in-memory last-seen id and
    the configuration file are threaded through explicitly. */
module Poll {

  import opened Wrappers
  import opened Enumeration
  import opened Feed
  import opened Notifier
  import opened Config
  import opened Checker

  /** main.go:153-157: the in-memory id follows the checker only when it
      reports no error. */
  function PollStep(lastId: string, newId: string, err: Option<CheckError>): (next: string)
    ensures err.None? ==> next == newId
    ensures err.Some? ==> next == lastId
  {
    if err.None? then newId else lastId
  }

  /** The process state between iterations: the id the loop carries and
      the configuration file on disk. */
  datatype Daemon = Daemon(lastId: string, disk: ConfigFile)

  /** How the process can end: a panic in the checker, or `log.Fatal` in
      `writeLastSeenID`. */
  datatype Termination = Crashed(panic: Panic) | PersistFailed(error: ConfigError)

  datatype Tick = Continue(daemon: Daemon) | Terminated(why: Termination)

  /** Performs the persistence writes of one check against the file, in order. */
  function ApplyWrites(disk: ConfigFile, ids: seq<string>): (r: Result<ConfigFile, ConfigError>)
    ensures r.Success? <==> disk.Parsed? || ids == []
    ensures r.Success? && ids != [] ==>
      && r.value.Parsed?
      && r.value.config == WithLastSeenId(disk.config, ids[|ids| - 1])
    decreases |ids|
  {
    if ids == [] then Success(disk)
    else
      match WriteLastSeenId(disk, ids[0])
      case Fatal(e) => Failure(e)
      case Written(config) => ApplyWrites(Parsed(config), ids[1..])
  }

  /** The effect of one check on the process: a panic ends it, the writes
      go to the file (a file that cannot be read or decoded ends it), and
      the carried id follows the check only when it reports no error. */
  function Advance(d: Daemon, c: Check): (t: Tick)
    ensures t.Terminated? <==> c.Panicked? || (c.persisted != [] && !d.disk.Parsed?)
    ensures c.Panicked? ==> t == Terminated(Crashed(c.cause))
    ensures t.Continue? ==>
      && (c.err.None? ==> t.daemon.lastId == c.id)
      && (c.err.Some? ==> t.daemon.lastId == d.lastId)
      && (c.persisted == [] ==> t.daemon.disk == d.disk)
      && (c.persisted != [] ==>
           t.daemon.disk == Parsed(WithLastSeenId(d.disk.config, c.persisted[|c.persisted| - 1])))
  {
    match c
    case Panicked(p) => Terminated(Crashed(p))
    case Returned(id, err, _, persisted) =>
      match ApplyWrites(d.disk, persisted)
      case Failure(e) => Terminated(PersistFailed(e))
      case Success(disk) => Continue(Daemon(PollStep(d.lastId, id, err), disk))
  }

  /** One iteration of the loop body as written. */
  function Iterate(d: Daemon, serverMap: map<string, string>, order: seq<string>,
                   fetched: FetchResult, net: Net): (t: Tick)
    requires Enumerates(order, serverMap.Keys)
    ensures t.Terminated? <==>
      || fetched.FetchFailed?
      || |fetched.items| == 0
      || (fetched.items[0].id != d.lastId && !d.disk.Parsed?)
    ensures t.Continue? ==>
      && t.daemon.lastId == fetched.items[0].id
      && (fetched.items[0].id == d.lastId ==> t.daemon.disk == d.disk)
      && (fetched.items[0].id != d.lastId ==>
            t.daemon.disk == Parsed(WithLastSeenId(d.disk.config, fetched.items[0].id)))
  {
    Advance(d, CheckForUpdates(d.lastId, serverMap, order, fetched, net))
  }

  /** The file on disk records exactly the id the loop carries. */
  ghost predicate InSync(d: Daemon)
  {
    d.disk.Parsed? && d.disk.config.lastSeenId == d.lastId
  }

  /** What a check may return: an update that persists exactly its new id, a
      no-op that returns the old id, or an error; the last two persist nothing. */
  ghost predicate Coherent(lastId: string, c: Check)
  {
    c.Returned? ==>
      || (c.err.None? && c.persisted == [c.id])
      || (c.err.None? && c.id == lastId && c.persisted == [])
      || (c.err.Some? && c.persisted == [])
  }

  /** Both checkers only ever return coherent results. */
  lemma ChecksAreCoherent(lastId: string, serverMap: map<string, string>, order: seq<string>,
                          fetched: FetchResult, net: Net)
    requires Enumerates(order, serverMap.Keys)
    ensures Coherent(lastId, CheckForUpdates(lastId, serverMap, order, fetched, net))
    ensures Coherent(lastId, CheckForUpdatesSafe(lastId, serverMap, order, fetched, net))
  {
  }

  /** Loading the configuration starts the loop in sync with the file. */
  lemma StartsInSync(config: NtfyConfig, order: seq<string>, parseDuration: string -> Option<int>)
    requires Enumerates(order, config.servers.Keys)
    ensures var r := ReadConfig(Parsed(config), order, parseDuration);
      r.Success? ==> InSync(Daemon(r.value.lastSeenId, Parsed(config)))
  {
  }

  /** A coherent check never makes the file and the loop disagree: the only
      way out is a panic, and otherwise the persisted id is the carried id. */
  lemma AdvanceKeepsSync(d: Daemon, c: Check)
    requires InSync(d)
    requires Coherent(d.lastId, c)
    ensures Advance(d, c).Terminated? <==> c.Panicked?
    ensures Advance(d, c).Continue? ==> InSync(Advance(d, c).daemon)
  {
  }

  /** The loop as written stays in sync for as long as it runs; it stops
      exactly when the fetch failed or the feed was empty. */
  lemma IterateKeepsSync(d: Daemon, serverMap: map<string, string>, order: seq<string>,
                         fetched: FetchResult, net: Net)
    requires Enumerates(order, serverMap.Keys)
    requires InSync(d)
    ensures var t := Iterate(d, serverMap, order, fetched, net);
      && (t.Terminated? <==> fetched.FetchFailed? || |fetched.items| == 0)
      && (t.Continue? ==> InSync(t.daemon))
  {
  }

  /** With the corrected checker the loop never stops, stays in sync, and
      keeps its id across a failed fetch or an empty feed. */
  lemma SafeIterationNeverStops(d: Daemon, serverMap: map<string, string>, order: seq<string>,
                                fetched: FetchResult, net: Net)
    requires Enumerates(order, serverMap.Keys)
    requires InSync(d)
    ensures var t := Advance(d, CheckForUpdatesSafe(d.lastId, serverMap, order, fetched, net));
      && t.Continue? && InSync(t.daemon)
      && (fetched.FetchFailed? || |fetched.items| == 0 ==> t.daemon == d)
  {
  }

  /** Two destinations, one with a token: stored id "42", a feed headed by
      item "43", D1 without a token and D2 with token "t", visited in
      whichever order the map iteration chooses. */
  lemma TwoDestinationScenario(order: seq<string>, net: Net)
    requires Enumerates(order, {"D1", "D2"})
    ensures var items := [Item("43", "S", "B", "L"), Item("42", "S0", "B0", "L0")];
            var serverMap := map["D1" := "", "D2" := "t"];
            var c := CheckForUpdates("42", serverMap, order, Fetched(items), net);
      && c.Returned? && c.id == "43" && c.err.None? && c.persisted == ["43"]
      && |c.attempts| == 2
      && c.attempts[0].endpoint != c.attempts[1].endpoint
      && forall k :: 0 <= k < 2 ==>
           var r := BuildRequest(c.attempts[k].message, c.attempts[k].endpoint, c.attempts[k].token);
           && c.attempts[k].endpoint in {"D1", "D2"}
           && r.body == "New update: S\nL\nB"
           && ("Authorization" in r.headers <==> c.attempts[k].endpoint == "D2")
           && (c.attempts[k].endpoint == "D2" ==> r.headers["Authorization"] == "Bearer t")
  {
    var items := [Item("43", "S", "B", "L"), Item("42", "S0", "B0", "L0")];
    var serverMap := map["D1" := "", "D2" := "t"];
    assert serverMap.Keys == {"D1", "D2"};
    EnumerationLength(order, {"D1", "D2"});
    var c := CheckForUpdates("42", serverMap, order, Fetched(items), net);
    assert c == Announce(items[0], serverMap, order, net);
    assert FormatMessage(items[0]) == "New update: S\nL\nB";
  }
}
