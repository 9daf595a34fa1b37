# pbackup ingestion core in Dafny

This project models the two pieces of pbackup that hold real logic:

- **The incremental-sync loop** of `src/main.rs` (lines 112-307). At start-up it loads the
  store record `data` = `{etat, offset, date, liste}`, or creates an empty one. It then asks
  the read-it-later service for pages of 30 items, starting at the stored offset, and sends
  the stored `date` as the `since` filter once the initial download is over. Each page's
  `list` is merged into `liste` by item id, with the page's entries replacing older ones.
  The loop advances the offset by the page size and remembers the last positive `since`
  the server reported. A reply whose `list` is not an object ends the list: the remembered
  watermark becomes the stored `date`, and an initial download is marked `miseAJour`. Any
  transport error, body-read error or non-200 status ends the loop. A call bound
  (`nb_appel_max`, 0 for none) can also end it. The record is saved every 10 pages and
  once after the loop.
- **The `MinMax` tracker** of `src/minmax.rs`. It keeps a count, the smallest and largest
  value, the last value, and a flag that stays true while values arrive in non-decreasing
  order.

Files:

- `values.dfy`: `Option`, `Result`, and a `Json` value type for the opaque item payloads.
- `sync.dfy`: module `Sync`.
  - The store record, the request parameters and their JSON body, and the start-up load.
  - The reply classification (`Receive`), one loop iteration (`StepOn`) and a whole run
    (`Run`), written as functions.
  - The imperative loop itself: `Ingest`, `PageLoop`, `HandleReply`, `ReceivePage` and
    `MergePage`. Each is proved equal to those functions.
- `sync_properties.dfy`: module `SyncProperties`. Lemmas about one iteration and about a
  whole run.
- `minmax.dfy`: module `ModMinMax`. The class `MinMax` has a ghost history of the values
  added. `Valid()` ties the fields to that history.

How the outside world appears in the model:

- The network is a sequence of `Reply` values. Each reply is already decoded: a transport
  error, or a status with the body (absent if it could not be read), whose `list` is either
  a JSON object or not.
- The store file as read is an `Option<Store>` input.
- The requests sent (`sent`) and the snapshots written (`saves`) are outputs of the run.
- The call bound is a parameter. In the source it is the constant 0 (`src/main.rs:84`).
- When the replies run out while the loop is still going, the run ends with the model's own
  exit `Pending`. This stands for a process killed while waiting for a reply, so there is
  no final save. Every exit the source itself takes ends with the final save.

Behaviour notes:

- The end-of-initialisation transition (`src/main.rs:278-281`) fires: when the list ends
  during an initial download, `etat` becomes `miseAJour`.
- `src/main.rs` has no forced passes, no separate cursor file, no "now" watermark, no
  replay planner and no timestamp guard, so the model has none either.

## Model

| member | source | states |
|---|---|---|
| `Sync.EmptyStore` | src/main.rs:134-141 | a missing store file gives `etat` initialisation, offset 0, date 0 and an empty `liste` |
| `Sync.Load` | src/main.rs:121-142 | missing file: fresh store, offset 0, since 0, initial download. Present file: the offset comes from the file (default 0); the run is an initial download iff `etat` is "initialisation"; otherwise `since` is the stored date, and loading fails exactly when that date is unusable |
| `Sync.BuildParameters` | src/main.rs:150-175 | `since` is absent exactly during an initial download, and is otherwise the stored watermark. The offset is the loop offset; count is 30, total 1, detailType "simple", sort "oldest"; the credentials come from the configuration |
| `Sync.RequestBody` | src/main.rs:36-47 | the serialised request has a `since` key iff `since` is set, and then holds that value; `offset` is always present |
| `Sync.Merged` | src/main.rs:262-265 | the merged map has the union of the keys; page entries take the page's value; other entries keep their old value |
| `Sync.MergePage` | src/main.rs:262-265 | the entry-by-entry merge loop produces exactly `Merged` of the map and the page |
| `Sync.ReceivePage` | src/main.rs:193-283 | handling one reply (status and body checks, then the merge or the end-of-list bookkeeping) yields exactly the classification `Receive` |
| `Sync.Run` | src/main.rs:144-307 | a run consumes at most the given replies and sends one request per reply consumed; when it is still pending it has consumed all of them |
| `Sync.PageLoop` | src/main.rs:144-307 | the loop with its breaks, checkpoints and final save yields exactly `Run` from offset, watermark and count 0 |
| `Sync.HandleReply` | src/main.rs:193-292 | handling a reply, counting the page and applying the call bound yields exactly the iteration `StepOn` |
| `Sync.Ingest` | src/main.rs:112-307 | start-up followed by the loop: fails exactly when `Load` fails, and otherwise yields `Run` from the loaded state with candidate watermark and count 0 |
| `SyncProperties.MergeIdempotent` | src/main.rs:262-265 | merging the same page twice gives the same map as merging it once |
| `SyncProperties.MergeAllKeeps` | src/main.rs:262-265 | merging any sequence of pages removes no key, and keeps the value of every key that none of the pages mentions |
| `SyncProperties.RequestSinceOnlyAfterInitialisation` | src/main.rs:150-177 | the request body carries `since` iff the run is not an initial download, and then carries the stored watermark; it always carries the current offset |
| `Sync.ParseParameters` | src/main.rs:36-47 | reading a request body fails when any field but `since` is missing, and when `total` is outside 0-255; a record read back has the body's `offset` and `total`, and has `since` iff the body has it and it is not null, with its value |
| `SyncProperties.NullSinceReadsAsNone` | src/main.rs:45-46 | a request whose `since` is null reads back as the same parameters with no `since` |
| `Sync.EndOfListStore` | src/main.rs:272-281 | at the end of the list the record keeps its entries and offset; `date` becomes the candidate watermark when that is positive and is otherwise kept; `etat` becomes miseAJour iff the run is an initial download |
| `Sync.Counted` | src/main.rs:285-296 | counting a page adds one to the count and changes nothing else; the loop stops iff the bound is positive and the count has reached it, and then leaves on the bound; otherwise it checkpoints iff the count is a multiple of 10 |
| `SyncProperties.RequestRoundTrip` | src/main.rs:36-47 | deserialising a serialised parameter record gives back the same record |
| `SyncProperties.WithItemsUpdates` | src/main.rs:256-271 | merging a page moves the offset by the page size and records it, merges the entries, leaves `etat`, `date` and the count alone, and takes the page's `since` as candidate watermark only when it is positive |
| `SyncProperties.PageAdvancesOffset` | src/main.rs:256-266 | a page of n entries moves the offset by exactly n; the record's offset equals the new offset; the entries are merged; `etat` and `date` are untouched; the page count grows by one |
| `SyncProperties.PageTracksWatermark` | src/main.rs:267-271 | the candidate watermark takes the page's `since` when it is positive, and otherwise keeps its previous value |
| `SyncProperties.EmptyPageContinues` | src/main.rs:256-292 | an empty `list` object changes neither entries nor offset and counts one page; it stops the loop only through the call bound |
| `SyncProperties.EndOfListCommits` | src/main.rs:272-283 | a reply without a list object ends the loop. `date` becomes the candidate watermark iff that is positive, else it is unchanged. `etat` becomes miseAJour iff the run is an initial download. `liste` and both offsets are untouched |
| `SyncProperties.FailureStopsUnchanged` | src/main.rs:193-230 | a transport error, an unreadable body or any non-200 status ends the loop with the state unchanged; 404 and 400 are reported as such |
| `SyncProperties.ReceiveClassifies` | src/main.rs:193-283 | a reply is merged iff it is a 200 whose body holds a `list` object; a stopping reply ends the list iff it is a 200 whose `list` is of another type; every other stop leaves the state unchanged; no reply leaves on the bound or as pending |
| `SyncProperties.StepOnOutcome` | src/main.rs:193-296 | an iteration continues only after a merged page, which it counts; it never leaves as pending; it leaves on the bound only with a positive bound the count has reached |
| `SyncProperties.StepSummary` | src/main.rs:256-296 | one iteration moves the map, offset and count exactly as the received page says. Only a page lets the loop continue; it checkpoints iff the count is a multiple of 10; it stops on the bound only at or past it; no key is lost |
| `SyncProperties.RunMergesPages` | src/main.rs:256-266 | at the end of a run the map is the start map with every consumed page merged in, in order |
| `SyncProperties.RunAdvancesOffset` | src/main.rs:260-285 | at the end of a run the offset is the start offset plus the sizes of the consumed pages; the count grows by the number of pages |
| `SyncProperties.RunRecordsOffset` | src/main.rs:266 | the record's offset equals the loop offset at the end of a run once a page has been merged |
| `SyncProperties.RunKeepsKeys` | src/main.rs:262-265 | no key present at the start of a run is missing at its end |
| `SyncProperties.RunRespectsCallBound` | src/main.rs:285-292 | with a positive bound, at most that many pages are processed; the loop leaves on the bound iff the final count equals the bound |
| `SyncProperties.RunUnboundedWithZero` | src/main.rs:289-292 | with bound 0, a run fed only pages processes all of them and never stops on its own |
| `SyncProperties.RunNeverBoundWithZero` | src/main.rs:289-292 | with bound 0, no run, whatever its replies, leaves on the call bound |
| `SyncProperties.RunRequests` | src/main.rs:150-175 | the requests a run sends are, in order, the requests for the replies it consumes, each at the offset reached after the pages before it |
| `SyncProperties.RequestsAtOffsets` | src/main.rs:150-175 | request j carries the fixed fields, carries `since` iff the run is not an initial download, and asks for the start offset plus the sizes of the j earlier pages |
| `SyncProperties.RunSavesAtExit` | src/main.rs:282-307 | every exit the source takes ends with a save of the final record |
| `SyncProperties.RunCheckpointCount` | src/main.rs:285-307 | the number of saves is one per multiple of 10 that the page count passes, except one reached at the call bound, plus the final save |
| `SyncProperties.RunSnapshotsGrow` | src/main.rs:294-296 | every snapshot saved during a run holds all the keys the run started with, and the run ends holding all the keys of every snapshot |
| `SyncProperties.FirstCallFailsKeepsStore` | src/main.rs:193-230 | when the first call fails, the store is saved once exactly as it was loaded |
| `ModMinMax.LeastIsMinimum` | src/minmax.rs:14-25 | the running minimum is one of the values and at most every value |
| `ModMinMax.GreatestIsMaximum` | src/minmax.rs:14-25 | the running maximum is one of the values and at least every value |
| `ModMinMax.NonDecreasingIsSorted` | src/minmax.rs:27-31 | checking neighbours only (as `add` does against `last`) is the same as every value being at most every later one |
| `ModMinMax.NonDecreasingSnoc` | src/minmax.rs:27-32 | appending a value keeps the order iff it was ordered and the value is at least the previous last one |
| `ModMinMax.OrderNeverRestored` | src/minmax.rs:27-31 | once the order is broken, no later values restore it |
| `ModMinMax.MinMax.CreateMinMax` | src/minmax.rs:43-51 | a new tracker has count, min, max and last all 0, the order flag set and an empty history |
| `ModMinMax.MinMax.Add` | src/minmax.rs:14-33 | `add(v)` keeps the fields a summary of the history: v is appended to the history, the count grows by 1 and last becomes v. The first add sets min and max to v; later adds lower min or raise max only when v passes them. The order flag stays set iff it was set and v is at least the previous last value, so it never goes from false back to true |
| `ModMinMax.MinMax.ExtremesBound` | src/minmax.rs:14-25 | in any state that satisfies `Valid()` and holds values, min and max are values of the history, and every value lies between them |
| `ModMinMax.MinMax.FlagMeansSorted` | src/minmax.rs:27-31 | in any state that satisfies `Valid()`, the order flag is set iff 0 followed by the history is sorted: every value is at most every later one |
| `ModMinMax.ExtremesSnoc` | src/minmax.rs:18-25 | the minimum and maximum of a history extended by v are the old ones, replaced by v only where v passes them |
| `ModMinMax.OrderSnoc` | src/minmax.rs:27-31 | the history extended by v is in order after the initial 0 iff the history was, and v is at least the previous last value (0 for the first add) |

## Left out

- HTTP client, async runtime and request sending (`src/main.rs:145`, `183-189`, `196`): network I/O. Each reply is an input value.
- JSON decoding of the reply (`src/main.rs:241-243`), including the panics on a body that is not JSON or not an object: foreign-library decoding. The `Page` input is already decoded.
- Replies without one of the keys `maxActions`, `cachetype`, `since` or `list`: indexing a serde_json `Map` by a missing key panics (`src/main.rs:245-256`), so the process dies with no final save. `Page` assumes all four keys are present; its `None` means a key present with another type.
- Reading `data.json` and its panics (`src/main.rs:123-125`), `backup_data` and `save_as_json_list` (`src/main.rs:319-337`, `366-375`): file-system I/O. The file as read is an input, and each save is an element of the `saves` output.
- A stored `liste` that is not a JSON object (indexing it would panic), and a stored document that is not an object: the store input always carries a map. An absent or null `liste` acts like an empty map for merging, as serde_json's mutable indexing inserts null and a write into null makes it an object; the saved record then holds `liste` as null or absent where the model holds an empty map.
- `get_config` (`src/main.rs:339-364`), the log4rs set-up and every log or console line (`src/main.rs:62-110`), the sleep between pages (`src/main.rs:298-300`) and the run timing (`src/main.rs:309-315`): configuration, logging and clock, with no effect on the state.
- `src/config.rs`: plain configuration records and state-name constants, with no logic of its own.
- `impl fmt::Display for MinMax` (`src/minmax.rs:37-41`): formatting only.
- The derived `Default` for `MinMax` (whose order flag is false): only `create_min_max` is modelled.
- JSON numbers are integers. A fractional `since` from the server, or an integer one above i64::MAX, reads as absent, as `as_i64` gives none for both; the decoded `Page` holds `since` only when it fits in i64.
- Sync.ParseParameters: `count`, `offset` and `since` are not checked against the u64 range, so a value above u64::MAX, which serde refuses, is read back.
- Sync.Run: offsets, counts and watermarks are unbounded integers, so u64 overflow is not modelled (`offset + len`, `count += 1`, the cast `date as u64` of a positive value).
- ModMinMax.MinMax.Add: requires the count to be below i32::MAX. This excludes the overflow of `nb += 1`, which panics in a debug build and wraps in a release build.
