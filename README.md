# photoboxrecents core, modelled in Dafny

This project models the two sequential state machines of the photoboxrecents
service.

- **The photo file service** (`photofiles.go`, module `PhotoFiles`) owns the
  catalog: an ordered list of photo files, a path-to-entry index, a record of
  every file sent on `newPhotoFilesChan`, and the set of listener channels.
  - A file joins the catalog only if its path is not yet indexed and matches
    `(?i).+\.(png|jpeg|JPG)`.
  - The bootstrap scan builds `folder/name` entries from a directory listing,
    sorts them by modification time and ingests them in that order.
  - New photos are broadcast to every registered listener.
- **The web-client hub** (`webclienthub.go`, module `Hub`) owns the set of
  connected web clients. Each client has an outbound queue of capacity 2048
  and a closed flag.
  - Registering a client sends it the ten-entry backlog.
  - Unregistering a client removes it and closes its queue.
  - Broadcasting a photo tries a non-blocking send to every client and
    unregisters any client whose queue is full.
  - The control loop is one `Step` per selected request.

Both classes keep their state in plain fields (`seq`, `map`, `set`). Their
methods state the new state in terms of the old. The value-level rules behind
them are functions with lemmas: the photo-path pattern, ingestion of one file
and of a list, and the messages sent for a list of files.

How the model reads the source:

- **The pattern.** `(?i)` applies to all three alternatives, so `JPG` matches
  in any case, like `png` and `jpeg`. The match is not anchored either.
  - A path qualifies exactly when some position `i >= 1` holds a `.` that has
    a non-newline character before it and `png`, `jpeg` or `jpg` after it,
    ignoring case. Go's `.` does not match a newline.
  - So `a.png.txt` qualifies, while `.png` and `a\n.png` do not.
  - `IsPhotoPath` implements this by searching the path. `MatchesPhotoPattern`
    is the declarative reference definition; `IsPhotoPath`'s contract says
    the two agree.
- **The backlog.** `GetRecentPhotoFiles` is `photoFiles[:10]`: the first ten
  catalog entries, not the last ten. With fewer than ten entries,
  `registerWebClient` panics. Either the slice expression fails, or it
  reaches past the length into spare capacity and yields a nil entry. The
  model therefore requires at least ten entries. The name suggests the ten
  most recent entries, but the code returns the first ten, and the model
  follows the code.
- **Modification times** are integers. `ByModTime.Less` is a strict
  comparison.
- **The sort.** `sort.Sort` is not stable, and the model does not fix its
  algorithm. `SortByModTime` sorts by insertion through `Less` and `Swap`,
  but its contract promises only what any sort gives: the result is ordered
  by modification time and is a permutation of the input.
  `ScanPhotoFolder` returns the order it chose as a ghost result, so its
  contract can describe the catalog in terms of that order.
- **Channels** are sequences. A `PhotoListener` or `WebClient` records what
  was sent on its channel and whether that channel was closed. A send on a
  closed channel panics in Go, so the invariants `ListenersOpen` and
  `WebClientHub.Valid` keep every registered channel open, and each send
  asserts it.

## Model

| member | source | states |
|---|---|---|
| `PhotoFiles.MatchFrom` | photofiles.go:82 | True exactly when the pattern matches with its dot at position `i` or later. |
| `PhotoFiles.IsPhotoPath` | photofiles.go:82 | True exactly when some position at least 1 holds a dot, preceded by a non-newline character and followed by `png`, `jpeg` or `jpg` in any case (`MatchesPhotoPattern`). |
| `PhotoFiles.AcceptsInnerExtension` | photofiles.go:82 | The match is unanchored: `a.png.txt` is a photo path. |
| `PhotoFiles.AcceptsAnyCase` | photofiles.go:82 | `(?i)` covers every alternative: `.JPG`, `.Jpeg` and `.PnG` all match. |
| `PhotoFiles.RejectsNonPhotos` | photofiles.go:82 | `.png` (nothing before the dot), `a.gif` and `a\n.png` (newline before the dot) do not match. |
| `PhotoFiles.IngestAllPaths` | photofiles.go:70-72 | Ingesting a list adds exactly the paths of its photo files to the catalog's paths. |
| `PhotoFiles.IngestAllDistinct` | photofiles.go:70-72 | Ingesting a list never creates two entries with the same path. |
| `PhotoFiles.IngestAllIsFirstNewPhotos` | photofiles.go:70-72 | Ingesting a list appends, in list order, exactly the entries that are photos whose path is neither catalogued nor earlier in the list (reference filter `FirstNewPhotos`). Earlier entries keep their positions. |
| `PhotoFiles.IngestAllSorted` | photofiles.go:68-72 | If the catalog followed by the list is ordered by modification time, the ingested catalog is too, and it holds only entries of the two. |
| `PhotoFiles.PhotoFile.String` | photofiles.go:21-23 | A photo file's message is its path (body). |
| `PhotoFiles.PathsOfPrefix` | webclienthub.go:55-57 | The messages for a prefix of a list of files are a prefix of the messages for the whole list. |
| `PhotoFiles.PathsOfAppend` | webclienthub.go:68-70 | The messages for a list extended by one file are the list's messages followed by that file's path. |
| `PhotoFiles.Ingest` | photofiles.go:76-94 | The catalog after one `addPhotoFile`. Its contract says the old catalog stays a prefix and at most one entry is added. Its body keeps the catalog when the path is catalogued or not a photo, and otherwise appends `pf`. |
| `PhotoFiles.IngestAll` | photofiles.go:70-72 | The catalog after `addPhotoFile` of each file in order. The old catalog stays a prefix, and at most one entry is added per file. |
| `PhotoFiles.Less` | photofiles.go:183-186 | `ByModTime.Less`: entry `i` was modified strictly before entry `j` (body). |
| `PhotoFiles.ScanEntry` | photofiles.go:63-64 | The scanned entry for a listed file: path `folder + "/" + name`, with the file's modification time (body). |
| `PhotoFiles.Swap` | photofiles.go:179-181 | Exchanges two entries in place, leaves every other entry unchanged, and preserves the multiset of entries. |
| `PhotoFiles.SortByModTime` | photofiles.go:68 | In place, the array ends up ordered by non-decreasing modification time and is a permutation of the input. |
| `PhotoFiles.ScanListing` | photofiles.go:61-66 | One entry per listed file, in listing order: path `folder + "/" + name`, with the file's modification time. |
| `PhotoFiles.PhotoListener.constructor` | webclienthub.go:30 | A new listener channel has received nothing and is open. |
| `PhotoFiles.PhotoFileService.constructor` | photofiles.go:37-48 | The new service has an empty catalog, index, outbox and listener set, which satisfy the catalog invariant. |
| `PhotoFiles.PhotoFileService.GetRecentPhotoFiles` | photofiles.go:50-52 | Given at least ten entries, returns the first ten entries in catalog order, with distinct paths when the catalog has them. |
| `PhotoFiles.PhotoFileService.AddPhotoFile` | photofiles.go:76-94 | Returns true iff the path is not indexed and matches the pattern. On true, the catalog gains `pf` at the tail, the index gains exactly `pf.path ↦ pf`, and `pf` is sent once. On false, catalog, index and outbox are unchanged. The catalog invariant (index keys = catalog paths, no duplicates) is preserved. |
| `PhotoFiles.PhotoFileService.AddPhotoFiles` | photofiles.go:70-72 | `addPhotoFile` of each file in order: the catalog and the outbox each gain exactly the first new photo of each path, in list order. The invariant is preserved and the listener set is unchanged. |
| `PhotoFiles.PhotoFileService.ScanPhotoFolder` | photofiles.go:54-74 | The chosen order is a sorted permutation of the scanned entries. The catalog and the outbox gain exactly the first new photo of each path, in that order. Catalog paths become old paths plus the scanned photo paths. From an empty catalog, the result is sorted by modification time. The invariant is preserved. |
| `PhotoFiles.PhotoFileService.HandleFileEvent` | photofiles.go:112-126 | A create event with a successful stat is ingested exactly as `addPhotoFile`. It is added iff its path is not indexed and is a photo path. When added, the catalog, the index and the outbox each gain that one entry. Any other event, a failed stat or a rejected path leaves catalog, index and outbox unchanged. |
| `PhotoFiles.PhotoFileService.BroadCastNewPhotoFile` | photofiles.go:148-153 | Every registered listener receives `pf` exactly once at the tail of its queue. The listener set is unchanged, and no send targets a closed listener. |
| `PhotoFiles.PhotoFileService.UnregisterNewPhotoListener` | photofiles.go:155-162 | An absent listener is a no-op. A registered one is removed and closed, and its queue is untouched. The catalog is unchanged. |
| `PhotoFiles.PhotoFileService.RegisterNewPhotoListener` | photofiles.go:164-166 | Set insertion, idempotent. All listeners stay open iff they were and the new one is open. The catalog is unchanged. |
| `Hub.WebClient.constructor` | webclient.go:30-38 | A new client has an empty, open queue. |
| `Hub.WebClientHub.constructor` | webclienthub.go:23-36 | No clients yet. A fresh listener is added to the photo file service's listener set, and nothing else of the service changes. |
| `Hub.WebClientHub.RegisterWebClient` | webclienthub.go:64-71 | The client joins the set. Its queue gains the paths of the first ten catalog entries, in order. All registered queues stay open and within 2048. |
| `Hub.WebClientHub.UnregisterWebClient` | webclienthub.go:73-81 | The client leaves the set and is closed iff it was registered; an unregistered client is untouched. Its queue is unchanged. Since the client is absent afterwards, a second call is a no-op. |
| `Hub.WebClientHub.BroadcastPhotoFile` | webclienthub.go:52-62 | The new client set is exactly the old clients with room. Each of them gets the photo's path at the tail and stays open. Each full client gets nothing and is closed. No client is added, and clients outside the set are outside the frame. The result does not depend on iteration order. |
| `Hub.WebClientHub.BroadcastPhotoFiles` | webclienthub.go:38-62 | Over consecutive broadcasts, no client is added. A client stays registered iff its queue has room for all of the paths; it then receives them all, in broadcast order, after what it already held. Any other client is closed, and it holds exactly the paths that filled its queue to 2048, in order. |
| `Hub.WebClientHub.Step` | webclienthub.go:38-50 | Each request runs exactly one handler, with that handler's outcome: register, unregister, or broadcast of the file taken from the head of the hub's listener queue. The hub's listener is never closed, and its queue changes only when a file is taken. |
| `Hub.HasRoom` | webclienthub.go:56-58 | The non-blocking send on a client's queue succeeds: the queue holds fewer than 2048 messages (body). |

## Left out

- `watchFolderLoop`'s fsnotify watcher, `filepath.Abs`, `os.Stat` and error logging are filesystem I/O. `HandleFileEvent` takes the event kind as a boolean, the absolute path as given, and the stat result as an `Option`. Go's `Op == fsnotify.Create` test becomes that boolean.
- `ioutil.ReadDir` and its fatal error at photofiles.go:56-59 are I/O: `ScanPhotoFolder` takes the listing as an input.
- Goroutines, the `select` loops and channel blocking (photofiles.go:135-146, 168-171; webclienthub.go:38-50) are scheduling. Each handler is one atomic step. `newPhotoListenerLoop`'s hand-off from `newPhotoFilesChan` to `broadCastNewPhotoFile` is not modelled, and neither is the scan racing the watcher: sortedness is stated only for a scan that starts from an empty catalog.
- `RegisterNewPhotoListenerChan` and `UnregisterNewPhotoListenerChan` are scheduling channels; the handlers they feed are modelled.
- webclient.go (read and write pumps, ping ticker, websocket deadlines) is network I/O, timers and concurrency. Only the queue capacity at webclient.go:35 is used. Nothing ever drains a client queue in this model.
- `handleWebClientConnection` and `upgrader` (webclienthub.go:9-13, 83-99) are HTTP and websocket plumbing. main.go (flags, file servers, process wiring) and the `log` calls are left out too.
- `Hub.WebClientHub.RegisterWebClient`: the source's sends block when the queue is full until the write pump drains it. Pumps are outside this model, so room for the backlog is a precondition, and so is an open queue (a send on a closed channel panics).
- `PhotoFiles.PhotoFileService.GetRecentPhotoFiles`: below ten entries the source panics, or it yields nil entries past the length (from spare capacity) that panic when used. The model leaves that case undefined through its precondition.
- `PhotoFiles.SortByModTime`: does not reproduce Go's `sort.Sort` algorithm, because the order among equal modification times is unspecified there. The contract states only sortedness and permutation.
- The Go regex engine is replaced by the explicit predicate above. Invalid UTF-8 and byte-level matching are not modelled: paths are `seq<char>`.
