# VSCO sync service — a Dafny model

This project models the core of a service that mirrors a VSCO account to local storage. One pass over an account does the following:

- It resolves the account's site. Resolution is by site id when the id is known and by username when it is not. A display name that changed under a known id renames the account directory.
- It records the bio text in an append-only history file.
- It stores the profile image unless the profile directory already names it.
- It walks the gallery and the collection listings page by page from page 1 until the first empty page. It downloads every item whose timestamp-derived key is not yet a directory in the target folder. It stores each item as `<dir>/<key>/<id>.jpg|.mp4` with an `Info.json` sidecar.

The HTTP calls and the disk I/O are not modelled. These things are inputs:

- the remote API: a `Remote` value of total functions for site by id, sites by username, the finite page lists, and the bytes at a URL;
- the directory listings;
- the bio history file;
- the clock;
- the rendering of a time as text.

Every effect on the file system is returned as a list of `FsOp` values.

Modules:

- `Models`: the records (`Site`, `Media`, `BioRecord`, `MediaData`), the `Account` class that resolution updates in place, Go's `int64`, and the inputs and effects.
- `Helpers`: the directory snapshot, the membership test, Go's truncating division, `time.Unix` normalisation, and the millisecond split.
- `Bio`: the bio history transition `BioStep` and its laws.
- `Selection`: the pure parts of the media sync. These are the dedup key, the URL and extension choice, the pagination specification (`FirstEmpty`, `Listed`), the dispatch specification `Dispatch`, and the writer's effects `Persist`.
- `Sync`: the loops of one pass. `ListPages` runs the page loop and `DispatchPage` the per-page scan. `RunWorkers` runs the workers, which register each key only after its download. `Consume` is the single writer.
- `Service`: the `Service` class with its path fields, plus `New`, `SetSite`, `CheckBio`, `CheckProfileImage`, `CheckGalleryMedia` and `CheckCollectionMedia`, and the resolution function `Resolve` with its lemmas.

Where the design description and the code disagree, the model follows the code:

- **Dedup within one pass.** The listing loop never adds a key to the snapshot. A worker adds its key only after its download has finished (`vscoservice/vscoservice.go:289-293`, `:423-427`). That registration runs after the worker's send on the unbuffered result channel (`:322`, `:456`), and the channel's only receiver starts after the listing loop has exited (`:334`, `:469`). So every membership test in the listing loop sees exactly the snapshot taken before the pass, and a key listed twice in one pass is fetched twice (`RepeatedPageDispatchedTwice`). The model promises that keys present at the start of the pass are skipped and all others are fetched (`Dispatch`, `DispatchComplete`).
- **Renames.** A rename is detected only when the site id is known. A username lookup records the ids but keeps the stored name. The rename then happens on the next pass (`RenameDeferredAfterUsernameLookup`).
- **Bio history.** "No two neighbouring records are equal" is not enforced on a stored file. It is only preserved by each check (`BioStepKeepsNoRepeats`).
- **Profile image.** The check tests the bare image id, but the image is stored as `<id>.jpg`. So the image is downloaded again on every pass (`ProfileImageRefetchedEveryPass`).

Timestamps: Go's `/` and `%` truncate toward zero, and `time.Unix` then normalises a negative nanosecond part. Both are written out (`GoQuot`, `GoRem`, `UnixTime`; the normalisation follows Go's documented `time.Unix`). `ParseMilliTimestamp` proves that the resulting second is always the floor `tm / 1000`, negative timestamps included. The collection key sums two `int64` values with wrap-around (`AddInt64`).

## Model

| member | source | states |
|---|---|---|
| `Helpers.EntriesForDir` | vscoservice/helpers.go:11-21 | An unreadable directory yields no set at all. Otherwise a name is in the set iff it is in the listing: order is irrelevant and duplicates collapse. |
| `Helpers.IsInEntries` | vscoservice/helpers.go:23-28 | True iff the name is in the snapshot. |
| `Helpers.GoQuot` | vscoservice/helpers.go:31 | Go's `/` truncates toward zero: the remainder it leaves lies in [0, b) for a non-negative dividend and in (-b, 0] for a negative one. |
| `Helpers.GoRem` | vscoservice/helpers.go:32 | Go's `%` completes `/`: `quot * b + rem == a`, `|rem| < b`, the sign follows the dividend, and for a non-negative dividend it is the Euclidean remainder. |
| `Helpers.UnixTime` | vscoservice/helpers.go:33 | The normalised time lies in the same instant as `(sec, nsec)`, with the nanoseconds in [0, 1e9). |
| `Helpers.ParseMilliTimestamp` | vscoservice/helpers.go:30-34 | The time of `tm` milliseconds has whole second `tm / 1000` (floor) and nanoseconds `(tm mod 1000) * 1e6`, for every int64 `tm`. |
| `Selection.NonNegativeSplit` | vscoservice/helpers.go:30-34 | For `tm >= 0`: `0 <= msec < 1000`, `msec * 1e6 < 1e9`, and `time.Unix` leaves the split unchanged, so the second is `tm / 1000`. |
| `Selection.MediaKeyMeaning` | vscoservice/vscoservice.go:282-283 | An item's key is the rendering of the floor second of its stamp. The gallery stamps by upload date. The collection stamps by upload plus collected date (`:415-416`): exact when the sum fits in int64, otherwise congruent modulo 2^64. |
| `Selection.SameSecondSameKey` | vscoservice/vscoservice.go:282-283 | Timestamps in the same second give the same key. When the rendering tells seconds apart, equal keys mean the same second, and only then. |
| `Selection.AddInt64` | vscoservice/vscoservice.go:416 | The collection stamp is the int64 sum of upload and collected dates: exact when it fits, otherwise wrapped modulo 2^64. |
| `Selection.MediaURL` | vscoservice/vscoservice.go:298-308 | The payload URL is `http://` followed by the video URL for a video and by the responsive URL otherwise (likewise at `:432-442`). |
| `Selection.Extension` | vscoservice/vscoservice.go:339-342 | The extension is `.mp4` exactly for a video and `.jpg` exactly otherwise. |
| `Selection.FirstEmpty` | vscoservice/vscoservice.go:273-279 | The number of pages before the first empty one: every earlier page is non-empty, and the page it points at is empty or past the end. |
| `Selection.FirstEmptyUnique` | vscoservice/vscoservice.go:273-279 | Any page number whose page is empty while all earlier pages are not is `FirstEmpty + 1`. |
| `Selection.Dispatch` | vscoservice/vscoservice.go:281-291 | Every dispatched task is a listed item whose key is not in the snapshot, carrying that key. There are no more tasks than listed items. With `DispatchComplete` and `DispatchAppend`, it is exactly the in-order filter of the listing. |
| `Selection.DispatchComplete` | vscoservice/vscoservice.go:281-291 | Every listed item whose key is not in the snapshot is dispatched. |
| `Selection.DispatchAppend` | vscoservice/vscoservice.go:273-327 | Dispatching a listing is dispatching its parts one after the other, in listing order. |
| `Selection.DispatchNextPage` | vscoservice/vscoservice.go:273-327 | Walking one more page appends that page's picks after the earlier ones. |
| `Selection.DispatchAllNew` | vscoservice/vscoservice.go:273-327 | When no listed key is on disk yet, every listed item is dispatched. |
| `Selection.RepeatedPageDispatchedTwice` | vscoservice/vscoservice.go:285-293 | A page listed twice in one pass is dispatched twice, because the listing loop registers no keys. |
| `Selection.RerunDispatchesNothing` | vscoservice/vscoservice.go:285-293 | Once the snapshot holds every key the last pass dispatched, a pass over the same listing dispatches nothing. |
| `Selection.TwoPagesThenEmpty` | vscoservice/vscoservice.go:273-327 | 30 new items on page 1, 1 on page 2 and an empty page 3 give two walked pages and 31 dispatched tasks. |
| `Selection.Persist` | vscoservice/vscoservice.go:334-360 | The writer produces three effects per result. |
| `Selection.PersistAt` | vscoservice/vscoservice.go:334-360 | The i-th group of three effects stores the i-th result. |
| `Selection.ItemLayout` | vscoservice/vscoservice.go:335-356 | The payload goes to `<dir>/<key>/<id>.mp4` for a video and to `.jpg` otherwise. The sidecar goes to `<dir>/<key>/Info.json`. The payload never overwrites the sidecar. |
| `Sync.ListPages` | vscoservice/vscoservice.go:273-327 | Requests pages 1, 2, 3, … in order and stops at the first empty page. Dispatches exactly `Dispatch` of the listed items against the unchanged snapshot. |
| `Sync.DispatchPage` | vscoservice/vscoservice.go:281-325 | The scan of one page picks exactly `Dispatch` of that page. |
| `Sync.RunWorkers` | vscoservice/vscoservice.go:287-323 | Each task yields its payload from `http://` plus the video URL for a video, and the responsive URL otherwise. The index gains exactly the dispatched keys, after the downloads. |
| `Sync.Consume` | vscoservice/vscoservice.go:334-360 | The writer's effects are exactly `Persist` of the results, in order. |
| `Bio.BioStep` | vscoservice/vscoservice.go:196-222 | Without a file, the history is exactly the current text at `now`. Otherwise earlier records are kept unchanged. Exactly one record `(text, now)` is appended iff the history is non-empty and its last text differs. An empty history stays empty. |
| `Bio.BioStepIdempotent` | vscoservice/vscoservice.go:216-221 | A second check with unchanged text changes nothing. |
| `Bio.BioStepKeepsNoRepeats` | vscoservice/vscoservice.go:216-221 | A history without equal neighbouring texts keeps that property. |
| `Bio.BioStepRevertIsRecorded` | vscoservice/vscoservice.go:197-221 | Texts A, B, A from a missing file give three records A, B, A. |
| `Service.Resolve` | vscoservice/vscoservice.go:86-170 | A known site id is kept. With an answer, the site is the one found by id, or the first found by username, in which case its site id is copied. The account copies the site's user id. The username changes only on a rename, and then to the site's name. |
| `Service.RenameOnlyWithKnownId` | vscoservice/vscoservice.go:113-131 | A rename happens iff the id is known, the resolved name is non-empty and the name differs. The new name is the site's. |
| `Service.EmptyAnswerChangesNothing` | vscoservice/vscoservice.go:132-169 | An empty name for a known id, or an empty list for an unknown one, leaves the site and the account unchanged, with no rename. |
| `Service.ResolveByIdIdempotent` | vscoservice/vscoservice.go:113-131 | Resolving the resolved account again by id renames nothing and changes nothing. |
| `Service.RenameDeferredAfterUsernameLookup` | vscoservice/vscoservice.go:135-166 | A username lookup copies the site and user ids but keeps the stored name. The next pass, by id, performs the rename. |
| `Service.Service.constructor` | vscoservice/vscoservice.go:44-52 | The account path is `targetPath/username`, with `/Profile`, `/Gallery` and `/Collection` under it. The site starts as the empty value. |
| `Service.Service.SetSite` | vscoservice/vscoservice.go:85-171 | Site and account become `Resolve`'s. The target directory is unchanged. On a rename, the old account directory is moved and all four paths are recomputed under `targetDir/newName`. Without a rename, no path changes. |
| `Service.New` | vscoservice/vscoservice.go:42-82 | The paths agree with the resolved name. The only effects are the rename, if any, then the three sub-directories, and those only when the site is live. |
| `Service.Service.CheckBio` | vscoservice/vscoservice.go:174-223 | No live site means no effect, and an unreadable file is fatal. Otherwise the history file is rewritten with `BioStep`'s result exactly when that result differs from the stored history. |
| `Service.ProfileImageRefetchedEveryPass` | vscoservice/vscoservice.go:233-252 | Storing `<id>.jpg` never puts the bare id into the listing, so the check asks for the image again. |
| `Service.Service.CheckProfileImage` | vscoservice/vscoservice.go:225-257 | No live site means no effect, and an unreadable directory is fatal. Otherwise nothing is written if the id is listed. If not, `https://` plus the responsive URL is stored as `<profileDir>/<id>.jpg`. |
| `Service.SyncedLayout` | vscoservice/vscoservice.go:298-356 | The i-th dispatched item has a key not on disk. It is stored under `<dir>/<key>/` as `<id>.jpg` or `<id>.mp4`, downloaded from its URL, next to its `Info.json`. |
| `Service.Service.SyncMedia` | vscoservice/vscoservice.go:261-361 | No live site means no effect, and an unreadable directory is fatal. Otherwise: pages 1..first-empty are requested, `Dispatch` of the listed items is fetched, `Persist` is written, and the index becomes snapshot ∪ dispatched keys. |
| `Service.Service.CheckGalleryMedia` | vscoservice/vscoservice.go:261-361 | `SyncMedia` over the gallery directory and the site's gallery pages, keyed by upload date. |
| `Service.Service.CheckCollectionMedia` | vscoservice/vscoservice.go:395-496 | `SyncMedia` over the collection directory and the collection's pages, keyed by upload plus collected date. |

## Left out

- HTTP and JSON are not modelled: request building, the two header profiles with the bearer token, response decoding, and the panics on transport or decode errors. The site answers, the page lists and the downloaded bytes are inputs. The request URLs (site id, page size 30, page number) are not modelled.
- Pagination has no upper bound in the code. A listing is modelled as a finite list of pages, with every page past the end empty. So a listing source that never returns an empty page, and the endless loop it causes, is not representable.
- Concurrency is not modelled: the capacity-3 semaphore, the WaitGroup and the result channel. Workers run one after another after the listing loop, and results are written in dispatch order. The order of dispatch decisions is exact, because no worker registers its key before the listing loop has ended. Three things follow:
  - No bound on concurrent fetches is stated.
  - The writer receives results in completion order, which may differ from dispatch order.
  - The workers' deferred writes to the shared key map are unsynchronised with each other once the writer drains the channel. The Go runtime can abort the program on such concurrent map writes; the model adds the keys one at a time.
- File-system failures other than an unreadable directory listing or an unreadable bio file are not modelled: a failing `Mkdir` (fatal in `New`, ignored in the writer), `Rename` or `WriteFile`. Directory creation is the `EnsureDir` effect.
- `time.Now` is a parameter. `Time.Format` with the local time zone is the `Formatter` parameter over the whole second.
- `PrintBio` (console output), the command-line front end and the registry load/save in `main.go`, and the media location coordinates (floats) are not part of this model.
