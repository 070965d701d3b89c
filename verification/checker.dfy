/** The update decision, `checkForUpdates` (main.go:100-121), as written and
    with its guards moved before the read they are meant to protect. */
module Checker {

  import opened Wrappers
  import opened Enumeration
  import opened Feed
  import opened Notifier

  /** One call of `notify` made by the checker. */
  datatype Attempt = Attempt(endpoint: string, token: string, message: string, outcome: Outcome)

  datatype CheckError = FetchError(reason: string) | NoItems

  /** A Go run-time panic: selecting a field through the nil feed pointer,
      or indexing an empty item slice. Either ends the process. */
  datatype Panic = NilFeed | IndexOutOfRange

  /** One run of the checker: either it returns Go's `(string, error)` pair
      together with the notifications it attempted and the ids it persisted
      (in the order of the calls), or it panics. */
  datatype Check =
    | Returned(id: string, err: Option<CheckError>, attempts: seq<Attempt>, persisted: seq<string>)
    | Panicked(cause: Panic)

  /** The loop of main.go:113-117 over the destinations in visiting order
      `order`: each one is sent the message with its own token, and a failed
      send is only logged, so the loop always goes on. */
  function Deliver(msg: string, serverMap: map<string, string>, order: seq<string>, net: Net): (attempts: seq<Attempt>)
    requires forall k :: 0 <= k < |order| ==> order[k] in serverMap
    ensures |attempts| == |order|
    ensures forall k :: 0 <= k < |order| ==>
      attempts[k] == Attempt(order[k], serverMap[order[k]], msg, Notify(msg, order[k], serverMap[order[k]], net))
    decreases |order|
  {
    if |order| == 0 then []
    else
      var endpoint := order[0];
      var token := serverMap[endpoint];
      [Attempt(endpoint, token, msg, Notify(msg, endpoint, token, net))] + Deliver(msg, serverMap, order[1..], net)
  }

  /** The update branch (main.go:110-120): announce the newest item to every
      destination, then persist its id, whatever the sends returned. */
  function Announce(newest: Item, serverMap: map<string, string>, order: seq<string>, net: Net): (c: Check)
    requires forall k :: 0 <= k < |order| ==> order[k] in serverMap
    ensures c.Returned? && c.id == newest.id && c.err.None? && c.persisted == [newest.id]
    ensures |c.attempts| == |order|
    ensures forall k :: 0 <= k < |order| ==>
      && c.attempts[k].endpoint == order[k]
      && c.attempts[k].token == serverMap[order[k]]
      && c.attempts[k].message == FormatMessage(newest)
  {
    Returned(newest.id, None, Deliver(FormatMessage(newest), serverMap, order, net), [newest.id])
  }

  /** `checkForUpdates` as written. The fetch result is taken apart into Go's
      `feed` pointer and `err`; the newest item is read before either is
      checked, so a failed fetch or an empty feed panics, and the two guards
      after that read can no longer fire. */
  function CheckForUpdates(lastId: string, serverMap: map<string, string>, order: seq<string>,
                           fetched: FetchResult, net: Net): (c: Check)
    requires Enumerates(order, serverMap.Keys)
    ensures c.Panicked? <==> fetched.FetchFailed? || |fetched.items| == 0
    ensures c.Panicked? ==> (c.cause == NilFeed <==> fetched.FetchFailed?)
    ensures c.Returned? ==> c.err.None?
  {
    var feed: Option<seq<Item>> := if fetched.Fetched? then Some(fetched.items) else None;
    var err: Option<CheckError> := if fetched.FetchFailed? then Some(FetchError(fetched.reason)) else None;
    if feed.None? then Panicked(NilFeed)
    else if |feed.value| == 0 then Panicked(IndexOutOfRange)
    else if feed.value[0].id == lastId then Returned(lastId, err, [], [])
    else if |feed.value| == 0 then Returned("", Some(NoItems), [], [])
    else if err.Some? then Returned("", err, [], [])
    else Announce(feed.value[0], serverMap, order, net)
  }

  /** `checkForUpdates` with the fetch error and the empty feed checked
      before the newest item is read. The guards at main.go:105-108 exist
      only to report these two cases as errors, and the loop at
      main.go:153-157 logs errors and polls again, so reporting them rather
      than panicking is what the code is built for. */
  function CheckForUpdatesSafe(lastId: string, serverMap: map<string, string>, order: seq<string>,
                               fetched: FetchResult, net: Net): (c: Check)
    requires Enumerates(order, serverMap.Keys)
    ensures c.Returned?
    ensures fetched.FetchFailed? ==> c.err == Some(FetchError(fetched.reason))
    ensures (c.err.Some? && c.err.value.FetchError?) <==> fetched.FetchFailed?
    ensures c.err == Some(NoItems) <==> fetched.Fetched? && |fetched.items| == 0
    ensures c.err.Some? ==> c.attempts == [] && c.persisted == []
  {
    match fetched
    case FetchFailed(reason) => Returned("", Some(FetchError(reason)), [], [])
    case Fetched(items) =>
      if |items| == 0 then Returned("", Some(NoItems), [], [])
      else if items[0].id == lastId then Returned(lastId, None, [], [])
      else Announce(items[0], serverMap, order, net)
  }

  /** Wherever the checker as written does not panic, the corrected one
      behaves identically. */
  lemma SafeAgreesWhenNoPanic(lastId: string, serverMap: map<string, string>, order: seq<string>,
                              fetched: FetchResult, net: Net)
    requires Enumerates(order, serverMap.Keys)
    ensures var c := CheckForUpdates(lastId, serverMap, order, fetched, net);
      c.Returned? ==> c == CheckForUpdatesSafe(lastId, serverMap, order, fetched, net)
  {
  }

  /** The discrepancy: a failed fetch panics the checker as written, where
      the corrected one reports the fetch error and touches nothing. */
  lemma FetchErrorPanics(lastId: string, serverMap: map<string, string>, order: seq<string>,
                         reason: string, net: Net)
    requires Enumerates(order, serverMap.Keys)
    ensures CheckForUpdates(lastId, serverMap, order, FetchFailed(reason), net) == Panicked(NilFeed)
    ensures CheckForUpdatesSafe(lastId, serverMap, order, FetchFailed(reason), net)
         == Returned("", Some(FetchError(reason)), [], [])
  {
  }

  /** The same for a feed without items. */
  lemma EmptyFeedPanics(lastId: string, serverMap: map<string, string>, order: seq<string>, net: Net)
    requires Enumerates(order, serverMap.Keys)
    ensures CheckForUpdates(lastId, serverMap, order, Fetched([]), net) == Panicked(IndexOutOfRange)
    ensures CheckForUpdatesSafe(lastId, serverMap, order, Fetched([]), net) == Returned("", Some(NoItems), [], [])
  {
  }

  /** Seeing the stored id at the head of the feed is a no-op: the stored id
      comes back without error, nothing is sent and nothing persisted. Only
      the head counts; the id anywhere else in the feed does not. */
  lemma NoUpdateIffNewestSeen(lastId: string, serverMap: map<string, string>, order: seq<string>,
                              items: seq<Item>, net: Net)
    requires Enumerates(order, serverMap.Keys)
    requires |items| > 0
    ensures var c := CheckForUpdates(lastId, serverMap, order, Fetched(items), net);
      && c.Returned? && c.err.None?
      && (items[0].id == lastId ==> c.id == lastId && c.attempts == [])
      && (c.persisted == [] <==> items[0].id == lastId)
  {
  }

  /** On an update every destination is attempted exactly once, with the
      formatted newest item and its own token; the new id is persisted
      exactly once and returned without error. */
  lemma UpdateReachesEveryDestination(lastId: string, serverMap: map<string, string>, order: seq<string>,
                                      items: seq<Item>, net: Net)
    requires Enumerates(order, serverMap.Keys)
    requires |items| > 0 && items[0].id != lastId
    ensures var c := CheckForUpdates(lastId, serverMap, order, Fetched(items), net);
      && c.Returned? && c.id == items[0].id && c.err.None? && c.persisted == [items[0].id]
      && |c.attempts| == |serverMap|
      && (forall e :: e in serverMap ==> exists k :: 0 <= k < |c.attempts| && c.attempts[k].endpoint == e)
      && (forall k, l :: 0 <= k < l < |c.attempts| ==> c.attempts[k].endpoint != c.attempts[l].endpoint)
      && (forall k :: 0 <= k < |c.attempts| ==>
            && c.attempts[k].endpoint in serverMap
            && c.attempts[k].token == serverMap[c.attempts[k].endpoint]
            && c.attempts[k].message == UpdatePrefix + items[0].subject + "\n" + items[0].link + "\n" + items[0].body)
  {
    EnumerationLength(order, serverMap.Keys);
    var c := CheckForUpdates(lastId, serverMap, order, Fetched(items), net);
    forall e | e in serverMap ensures exists k :: 0 <= k < |c.attempts| && c.attempts[k].endpoint == e {
      var k :| 0 <= k < |order| && order[k] == e;
      assert c.attempts[k].endpoint == e;
    }
  }

  /** What the destinations answer changes only the recorded outcomes: the
      same destinations are tried with the same messages, and the returned
      id, the error and the persisted ids are the same. */
  lemma OutcomesDoNotSteer(lastId: string, serverMap: map<string, string>, order: seq<string>,
                           fetched: FetchResult, net1: Net, net2: Net)
    requires Enumerates(order, serverMap.Keys)
    ensures var c1 := CheckForUpdates(lastId, serverMap, order, fetched, net1);
            var c2 := CheckForUpdates(lastId, serverMap, order, fetched, net2);
      && c1.Panicked? == c2.Panicked?
      && (c1.Returned? ==>
           && c1.id == c2.id && c1.err == c2.err && c1.persisted == c2.persisted
           && |c1.attempts| == |c2.attempts|
           && forall k :: 0 <= k < |c1.attempts| ==>
                c1.attempts[k].(outcome := Pass) == c2.attempts[k].(outcome := Pass))
  {
  }
}
