# opnsense_ntfy in Dafny

A model of the poll-diff-notify-persist daemon in `main.go`. The daemon reads
a feed of recent posts, compares the id of the first item with the last id it
has seen, and on a change posts a plain-text message to every configured push
endpoint and writes the new id back into its YAML configuration file.

The model replaces every piece of I/O with a value or an oracle:

- the fetched feed is a `FetchResult`: decoded items, or the failure;
- the configuration file is a `ConfigFile`: decoded record, unreadable, or unparsable;
- the network is a `Net`: whether an endpoint parses as a URL, and what the server answers each request;
- Go's unspecified map iteration order is a sequence `order` that enumerates the map's keys (`Enumeration.Enumerates`);
- persistence writes are recorded as events (`Check.persisted`) and applied to the file by `Poll.ApplyWrites`.

Modules, one per component of the program:

| file | module | models |
|---|---|---|
| wrappers.dfy | `Wrappers` | `Option` and `Result` |
| enumeration.dfy | `Enumeration` | a visiting order of a map's keys |
| feed.dfy | `Feed` | feed items and the notification text |
| config.dfy | `Config` | the config record, `readConfig`, `writeLastSeenID` |
| notify.dfy | `Notifier` | `notify`: the request and the success rule |
| checker.dfy | `Checker` | `checkForUpdates`, as written and corrected |
| poll.dfy | `Poll` | one iteration of the loop in `main` |

`checkForUpdates` reads `feed.Items[0]` before it checks the fetch error or
the item count. In Go a failed fetch returns a nil feed, and indexing an
empty slice is out of range, so both cases panic and end the process. The
model keeps this: `Checker.CheckForUpdates` is total and returns `Panicked`
in exactly those cases. Because of this, the "no items" guard and the error
guard after the read can never fire. Those guards (main.go:105-108) exist
only to report an empty feed and a fetch error as errors. The loop at
main.go:153-157 logs such errors and polls again. So the code is evidently
meant to check both cases before the read. The model follows the code as
written, and models the guards in that order separately as
`Checker.CheckForUpdatesSafe` (see Findings).

## Model

| member | source | states |
|---|---|---|
| Enumeration.EnumerationLength | main.go:88 | a `range` over a map visits exactly as many entries as the map has keys |
| Config.Flatten | main.go:87-90 | the endpoint map never has more entries than there are groups visited |
| Config.FlattenKeys | main.go:87-90 | an endpoint is a key of the map if and only if some visited group names it |
| Config.FlattenLastWins | main.go:88-89 | every endpoint maps to the token of the last visited group with that endpoint, so when groups share an endpoint only one token survives |
| Config.ServerMapFromGroups | main.go:87-90 | with every group visited once: each group's endpoint is a key; each key maps to the token of some group with that endpoint; there are at most as many keys as groups |
| Config.ReadConfig | main.go:76-98 | an unreadable file gives a read error, undecodable content a parse error, and a bad interval a duration error; otherwise the last-seen id and feed URL are copied, the interval is the parsed duration, and the servers are flattened |
| Config.WriteLastSeenId | main.go:123-144 | the record is written back if and only if the file could be read and decoded; afterwards the last-seen id is the new id and servers, feed URL and interval are unchanged |
| Config.FlattenOrderIndependent | main.go:87-90 | two visiting orders of the same groups give the same endpoints, and the same tokens when no two groups share an endpoint |
| Config.WithLastSeenId | main.go:134 | the record carries the new last-seen id; servers, feed URL and interval are unchanged |
| Config.PersistThenRead | main.go:129-136 | after writing id X, a read, which after a restart may visit the groups in another order, gives last-seen id X, the same feed URL, interval and endpoints as a read before the write, the same tokens unless two groups share an endpoint, and the same error if the earlier read failed |
| Config.WriteTwice | main.go:134 | writing twice leaves the same file as writing only the second id |
| Notifier.BuildRequest | main.go:60-67 | a plain-text POST of the message to the endpoint; `Authorization` is present if and only if the token is non-empty, and then it is `Bearer ` + token; no other headers |
| Notifier.Notify | main.go:58-74 | a send succeeds if and only if the endpoint parses as a URL and the server answers 200; a transport error or any other status is a failure |
| Feed.FormatMessage | main.go:111 | the message is the prefix `New update: `, then the subject, a line break, the link, a line break and the body, each slot holding exactly that field and nothing else added |
| Feed.ParseFormat | main.go:110-111 | when subject and link are single lines, a receiver reading the message gets back exactly subject, link and body |
| Feed.FormatParse | main.go:110-111 | every message a receiver can read is exactly the prefix, subject, link and body joined by line breaks |
| Checker.Deliver | main.go:113-117 | one attempt per visited destination, in visiting order, each with the same message and that destination's own token; a failed send never cuts the loop short |
| Checker.Announce | main.go:110-120 | an update returns the newest id with no error, persists it once, and attempts each visited destination in order with its own token and the formatted newest item |
| Checker.CheckForUpdates | main.go:100-109 | panics if and only if the fetch failed (nil feed) or the feed is empty (index out of range); when it returns, the error is always nil, so the guards at lines 105-108 are dead |
| Checker.NoUpdateIffNewestSeen | main.go:102-104 | with a non-empty feed, nothing is persisted exactly when the first item's id equals the stored id; in that case the stored id comes back with no error and nothing is sent |
| Checker.UpdateReachesEveryDestination | main.go:110-120 | on a new first item, and given that every send returns, every destination is attempted exactly once with the formatted message and its own token; the new id is persisted exactly once and returned with no error |
| Checker.OutcomesDoNotSteer | main.go:113-120 | what destinations answer affects only the recorded outcomes, not the destinations tried, the messages, the returned id or the persisted ids |
| Checker.CheckForUpdatesSafe | main.go:100-121 | with the guards of lines 105-108 moved before the read at line 102: never panics; a fetch error or an empty feed is reported as such, with nothing sent or persisted |
| Checker.SafeAgreesWhenNoPanic | main.go:100-121 | whenever the code as written returns, the corrected checker returns the same result |
| Checker.FetchErrorPanics | main.go:101-102 | a failed fetch panics on the nil feed, where the corrected checker reports the error |
| Checker.EmptyFeedPanics | main.go:102-106 | an empty feed panics on the index, where the corrected checker reports "no items" |
| Poll.PollStep | main.go:153-157 | the carried id becomes the returned id when there is no error, and stays the same otherwise |
| Poll.ApplyWrites | main.go:119 | applying a check's writes to a decodable file always succeeds, and the file then records the last id written |
| Poll.Advance | main.go:153-157 | a panic ends the process; a write to a file that cannot be read or decoded ends it too; otherwise the file then records the last id written, and the carried id follows the check only when it reports no error |
| Poll.Iterate | main.go:152-157 | one iteration as written ends the process exactly on a failed fetch, an empty feed, or an update with an unreadable file; otherwise the carried id becomes the first item's id, and the file changes only on an update, to record that id |
| Poll.ChecksAreCoherent | main.go:100-121 | both checkers either persist exactly the id they return, or persist nothing and return the stored id or an error |
| Poll.StartsInSync | main.go:147-150 | a successful start-up carries the id the file records |
| Poll.AdvanceKeepsSync | main.go:152-157 | after a coherent check the file still records the carried id; the process ends only on a panic |
| Poll.IterateKeepsSync | main.go:152-158 | the loop as written keeps the file and the carried id equal, and stops exactly when the fetch failed or the feed was empty |
| Poll.SafeIterationNeverStops | main.go:152-158 | with the corrected checker the loop never stops, stays in sync, and is unchanged after a failed fetch or an empty feed |
| Poll.TwoDestinationScenario | main.go:100-121 | stored "42", feed headed by "43", destinations D1 (no token) and D2 (token "t"), in either visiting order: each is attempted once with "New update: S\nL\nB", only D2 gets `Bearer t`, and "43" is persisted and returned |

## Left out

- `fetchFeed` (main.go:39-56): the HTTP GET, reading the body and XML decoding are I/O and a foreign codec. Its result is the `FetchResult` parameter.
- YAML decoding and encoding (main.go:82, 130, 136) are a foreign codec. Only decoded records are modelled.
- File reads and writes are I/O. A read or decode failure inside `writeLastSeenID` ends the process (`Persisted.Fatal`). Marshal and write failures (main.go:136-143) are not modelled.
- `time.ParseDuration` (main.go:93) is a library parser. It is the `parseDuration` oracle.
- `time.Sleep` and the endless `for` (main.go:152-159) are timing. One iteration is modelled (`Poll.Iterate`).
- Log output, and the text of error values (for example `notification error: <nil>` for a non-200 status), are not modelled. Errors are tags.
- HTTP calls have no timeout (main.go:40, 59), so a server that accepts a connection and never answers blocks the checker forever. The later destinations and the write at main.go:119 are then never reached. The model assumes every fetch and every send returns: `FetchResult` and `Net.exchange` always give an answer.
- The unclosed response body in `notify` is a resource leak. No resources are modelled.

## Findings

| source | as written | input that shows it | evidently intended | confidence | as-written member | corrected member |
|---|---|---|---|---|---|---|
| main.go:101-108 | `feed.Items[0]` is read before `err` is checked | any failed fetch, for example a network error: `feed` is nil and the read panics | report the fetch error and retry on the next iteration | high, not executed | Checker.FetchErrorPanics | Checker.CheckForUpdatesSafe |
| main.go:102-106 | `feed.Items[0]` is read before the item count is checked | a feed document with no `recent-post` element: the index is out of range and panics | report "no items in feed" and retry on the next iteration | high, not executed | Checker.EmptyFeedPanics | Checker.CheckForUpdatesSafe |

`Checker.CheckForUpdates` and `Poll.Iterate` stay faithful to the code.
`Poll.SafeIterationNeverStops` is the loop built on the corrected checker.
