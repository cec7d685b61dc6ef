# EnterTheDungeon client synchronisation, modelled in Dafny

EnterTheDungeon is a small progressive web app that lists dungeon characters,
shows one in detail and lets the user edit its name, description and image.
`src/App.jsx` holds its client logic:

- it loads the list from the character API;
- it falls back to a copy cached in browser storage when the API cannot be reached;
- it keeps the selected character across refreshes of the list;
- it filters the list by a search box without new requests;
- it saves an edit with a PATCH, first uploading the image to the image host when that is configured.

This project models that logic and proves what it guarantees. The network,
browser storage and JSON are abstract inputs:

- each handler takes the outcome of its requests as a parameter (the list
  GET, the image upload, the PATCH);
- the requests it sends are appended to a log (`outbox`), so "no request is
  sent" can be stated;
- the storage entry is the value `JSON.parse` would make of the stored text.

Modules:

- `Wrappers`: `Option` and `Result`.
- `Text`: JavaScript's `String.prototype.trim` (with its whitespace set),
  ASCII lower-casing, and `includes` (defined by position, with a scanning
  definition proved equivalent).
- `Characters`: the character record and the derived `selectedCharacter`
  lookup. Also the three selection updaters that `fetchCharacters` and the
  mount effect pass to `setSelectedId`, and the `visibleCharacters` search
  filter.
- `Cache`: the `loadCache` acceptance rule over the storage entry.
- `Sync`: the component state as a value (`AppState`, one field per state
  slot), and one step function per handler giving the state after from the
  state before. The handlers are the mount effect, `fetchCharacters`,
  `handleSelect`, `handleBack`, and `handleSubmit` with
  `ensureCloudinaryUrlIfConfigured`. `handleSubmit` is split into two
  steps so that its `saving` guard can be reached: the first runs the checks
  and sets `saving`, and the second sends the requests (upload, PATCH,
  refetch) and clears it. The split point lies after the checks and before the
  first request. The program itself first yields only after that request is
  sent. Lemmas relate several steps.
- `Engine`: the component as a class `App`. Its fields are the state slots,
  and its methods update them one assignment at a time in the handlers'
  order. Each method is proved to reach exactly the state the matching
  `Sync` step computes. Each public handler method also keeps the invariant
  `Valid()`: both lists equal, and `saving` set exactly while a submit's save
  is in flight. The two inner steps `ApplyFetchOutcome` and `PrepareImage` are
  only called from handlers that restore it.

## Model

| member | source | states |
|---|---|---|
| `Text.LeadingSpace` | src/App.jsx:149 | the count of leading characters `trim` removes: all of them are whitespace, and the next one is not |
| `Text.TrailingSpace` | src/App.jsx:149 | the count of trailing characters `trim` removes: all of them are whitespace, and the one before them is not |
| `Text.Trim` | src/App.jsx:149 | the result is empty exactly when the text is all whitespace; otherwise it starts and ends with non-whitespace and is no longer than the input |
| `Text.TrimSlice` | src/App.jsx:149 | the trimmed text occurs in the input with only whitespace before and after it |
| `Text.TrimIdempotent` | src/App.jsx:255 | trimming an already trimmed text changes nothing, so the image URL read again in the upload step is the payload's |
| `Text.LowerChar` | src/App.jsx:149 | an upper-case ASCII letter becomes the lower-case letter 32 code points above it; every other character is kept; no upper-case ASCII letter comes out |
| `Text.ToLower` | src/App.jsx:152-154 | same length, each character lowered, no upper-case ASCII letter left |
| `Text.ContainsScanAgrees` | src/App.jsx:152-154 | `includes` is modelled by `Text.Contains`, which asks whether the term occurs at some position; the scanning definition `ContainsScan` holds exactly when `Contains` does |
| `Characters.FirstId` | src/App.jsx:176 | `rs[0]?.id ?? null` is null exactly for the empty list and otherwise names a listed record |
| `Characters.FindById` | src/App.jsx:142-145 | a record is found exactly when the selection is non-null and listed; the found record is in the list and carries the selected identifier |
| `Characters.FindByIdFirst` | src/App.jsx:143 | among several records with the selected identifier, the first one is found |
| `Characters.ReconcileFetched` | src/App.jsx:173-177 | after a successful fetch the selection is null exactly for an empty list, is kept when listed, else becomes the first identifier; it is always valid for the new list |
| `Characters.ReconcileCached` | src/App.jsx:186-189 | with the cached list the selection is kept when listed, else becomes the first identifier; never null for a usable cache |
| `Characters.ReconcileAgree` | src/App.jsx:173-189 | the two updaters agree on every list |
| `Characters.ReconcileStable` | src/App.jsx:173-177 | reconciling a second time against the same list changes nothing |
| `Characters.ReconciledIsFound` | src/App.jsx:142-145 | after reconciling, a selected record is found exactly when the list is non-empty |
| `Characters.SeedSelection` | src/App.jsx:206 | a non-null selection is kept as is, listed or not; a null one becomes the cached list's first identifier, which is valid and non-null for a non-empty list |
| `Characters.SeedAgreesWithReconcile` | src/App.jsx:186-189 | seeding and the cached-list updater give the same selection exactly when the selection is null or listed |
| `Characters.Matches` | src/App.jsx:151-155 | a record missing name, type and description never matches |
| `Characters.Filter` | src/App.jsx:151-155 | only matching records are kept, each matching record as often as in the input, in input order (a subsequence) |
| `Characters.FilterIdempotent` | src/App.jsx:151-155 | filtering the filtered list by the same term changes nothing |
| `Characters.VisibleCharacters` | src/App.jsx:148-157 | an all-whitespace query shows the whole list; otherwise a record is shown exactly when it is listed and matches the trimmed, lowercased query, as often as it is listed; the result is always an order-preserving subsequence |
| `Characters.VisibleIdempotent` | src/App.jsx:148-157 | applying the search to its own result changes nothing |
| `Characters.DragSearchExample` | src/App.jsx:148-157 | the query "drag" over "Dragon King" and "Goblin" shows only "Dragon King" |
| `Cache.LoadCache` | src/App.jsx:10-17 | a value is returned exactly when the entry parses to a non-empty array, and it is that array; a missing, empty, unparsable or non-array entry reads as null |
| `Cache.SaveThenLoad` | src/App.jsx:172 | `Cache.SaveCache` stores the list as an array entry; reading it back gives the list when non-empty and null when empty |
| `Sync.SeedStep` | src/App.jsx:200-207 | only the two lists and the selection change; with a usable cache both lists become it, a non-null selection is kept and a null one becomes the first cached identifier; without one nothing changes |
| `Sync.FetchStep` | src/App.jsx:162-198 | the success, cached-failure and no-cache-failure cases with their lists, cache writes, `offline` flag and notice; the selection is kept when listed, else becomes the first identifier (null only for an empty fetched list), and is left as it was without a cache; `loading` ends false, one GET is sent, nothing else changes, the invariant is kept |
| `Sync.FetchResult` | src/App.jsx:165-194 | the `try`/`catch` body changes only the lists, selection, notice, `offline` flag and cache |
| `Sync.FetchIgnoresSubmitSlots` | src/App.jsx:162-198 | a fetch neither reads nor writes `saving`, the in-flight payload, the success notice or the edit flag, and overwrites the error notice |
| `Sync.FetchReadsLittle` | src/App.jsx:162-198 | the outcome of a fetch depends only on the selection, the cache and the `offline` flag it starts from |
| `Sync.SelectStep` | src/App.jsx:234-240 | the identifier is selected, notices cleared, detail view opened, edit closed, nothing else changed; the record is then found exactly when that identifier is listed |
| `Sync.BackStep` | src/App.jsx:242-247 | the list view opens, edit closes, notices are cleared, nothing else changes |
| `Sync.SelectBackSelect` | src/App.jsx:234-247 | select, back, select the same identifier equals one selection |
| `Sync.PlanSubmit` | src/App.jsx:283-293 | the missing-fields error exactly when a trimmed field is empty; a payload exactly when all three are non-empty and a selected record with a non-empty identifier exists; the payload is the trimmed form and that identifier |
| `Sync.PlanImage` | src/App.jsx:254-259 | no image exactly for an empty trimmed URL; the URL unchanged exactly when it is on the image host (`Sync.OnImageHost`, the `includes` test of line 257) or uploading is not configured (`Sync.Configured`: endpoint and preset both set and non-empty, line 259); otherwise an upload of that URL with the configured endpoint and preset |
| `Sync.PreparedImage` | src/App.jsx:256-274 | no image for an empty URL; the URL as is when no upload is due; after an upload, the returned `secure_url` exactly when the reply is OK and carries a non-empty one |
| `Sync.SubmitStartStep` | src/App.jsx:280-296 | nothing while saving; each failed check sets only its notice; a passing check sets `saving`, clears notices and records the trimmed payload for a listed, selected record; no request is sent |
| `Sync.PrepareStep` | src/App.jsx:260-274 | the upload request is sent only when due, and a failed upload sets its notice; nothing else changes |
| `Sync.PatchStep` | src/App.jsx:300-309 | the PATCH is sent, then a GET only if accepted; a rejected PATCH sets only the save-failed notice; an accepted one is the refetch plus the success notice and closed edit |
| `Sync.PatchIfPrepared` | src/App.jsx:298-312 | without an image only the save-failed notice is set and nothing is sent; otherwise the PATCH step runs; exactly the PATCH requests are appended |
| `Sync.SubmitFinishStep` | src/App.jsx:297-315 | `saving` ends false and the handler resumes no more; without an image or with a rejected PATCH only the save-failed notice (and the log) changes; an accepted PATCH gives exactly the state a fetch gives, plus the success notice and the closed edit |
| `Sync.SubmitFinishSends` | src/App.jsx:298-307 | the finishing half appends exactly its upload, PATCH and GET requests, in order |
| `Sync.FinishRequestsShape` | src/App.jsx:257-307 | an upload only when configured and off the image host; a PATCH carries the payload's name, description and target identifier and a non-empty image, the URL unchanged when no upload was due; no PATCH without an image; a GET exactly after an accepted PATCH, last |
| `Sync.SubmitStep` | src/App.jsx:280-316 | while saving nothing changes; a failed check changes only the notice; a started submit with a prepared image and an accepted PATCH ends in the state a fetch gives plus the success notice and closed edit, and otherwise changes only the notices (save-failed, success cleared) and the log; `saving` ends false; the invariant is kept |
| `Sync.SubmitSends` | src/App.jsx:282-307 | a submit appends exactly the requests of its second half when its checks pass, and nothing otherwise |
| `Sync.SubmitRequests` | src/App.jsx:282-307 | no request while saving or after a failed check; any PATCH carries the trimmed non-empty name and description, a non-empty image and the identifier of the selected, listed record; a GET only after an accepted PATCH |
| `Sync.UnconfiguredPatchesFirst` | src/App.jsx:259-303 | with uploading unconfigured, a valid submit first sends the PATCH with the trimmed form values and the selected identifier |
| `Sync.RefreshTwice` | src/App.jsx:162-198 | refreshing twice with the same list leaves the state of one refresh, apart from the second GET |
| `Sync.FailureAfterSuccess` | src/App.jsx:168-194 | after fetching a non-empty list, a failing fetch falls back to it offline, keeping the selection; after fetching an empty list, no fallback remains |
| `Sync.MountExample` | src/App.jsx:200-209 | a cached record is shown and selected at once, and after the fetch the fresh list is shown, cached, with the same record selected |
| `Engine.App.constructor` | src/App.jsx:126-140 | the initial slots, as the value `Sync.Initial`: loading, nothing listed or selected, `offline` from the browser, no request sent |
| `Engine.App.SelectedCharacter` | src/App.jsx:142-145 | a record is returned exactly when the selection is listed, and it is a listed record carrying the selected identifier |
| `Engine.App.Visible` | src/App.jsx:148-157 | the whole list for a blank query; otherwise exactly the listed records matching the trimmed, lowercased query, each as often as listed; always an order-preserving subsequence |
| `Engine.App.SeedFromCache` | src/App.jsx:202-207 | the fields reach the seeded state |
| `Engine.App.Fetch` | src/App.jsx:162-198 | the fields reach the state `FetchStep` gives, and the invariant is kept |
| `Engine.App.ApplyFetchOutcome` | src/App.jsx:168-194 | the fields reach the state `FetchResult` gives |
| `Engine.App.Mount` | src/App.jsx:200-209 | seeding then fetching |
| `Engine.App.Select` | src/App.jsx:234-240 | the fields reach the state `SelectStep` gives |
| `Engine.App.Back` | src/App.jsx:242-247 | the fields reach the state `BackStep` gives |
| `Engine.App.SetQuery` | src/App.jsx:442-446 | only the query changes |
| `Engine.App.SubmitStart` | src/App.jsx:280-296 | the fields reach the state `SubmitStartStep` gives; the result tells whether the checks passed and the save is now in flight |
| `Engine.App.PrepareImage` | src/App.jsx:254-278 | the returned image is `PreparedImage` of the plan, and the fields reach `PrepareStep` |
| `Engine.App.Patch` | src/App.jsx:300-309 | the fields reach the state `PatchStep` gives |
| `Engine.App.SubmitFinish` | src/App.jsx:297-315 | the fields reach the state `SubmitFinishStep` gives |
| `Engine.App.Submit` | src/App.jsx:280-316 | the fields reach the state `SubmitStep` gives |

Where the code and the documented design disagree, the model follows the code:

- `handleSelect` selects any identifier, listed or not. The selected record
  is then simply not found.
- A successful fetch of an empty list writes `[]` to the cache. `loadCache`
  rejects that, so the earlier fallback is lost (`Cache.SaveThenLoad`,
  `Sync.FailureAfterSuccess`).
- A failed fetch without a usable cache leaves the selection as it was, even
  though no record is listed any more.
- After an accepted PATCH, `fetchCharacters` swallows its own failure, so
  the success notice is set even when the refetch failed.
- When the upload fails, its own notice is overwritten by the generic
  save-failed notice.

## Left out

- Rendering: the JSX, the SVG icons and `StatBar` (src/App.jsx:19-124, 318-515). `StatBar`'s percentages use floating point.
- The real `fetch`, `localStorage`, `JSON.parse`/`JSON.stringify` and `FormData`. They are abstract outcomes and a storage entry already parsed.
- Serialisation of the cache: a list written and read back is the same list; JSON round-tripping of record values is not modelled.
- A failing `localStorage.setItem` (for example, storage full). It would land in the failure branch after the lists were already set; not modelled.
- `console.error` logging.
- The `online`/`offline` window listeners (src/App.jsx:211-220), which are asynchronous browser events.
- Overlapping `fetchCharacters` calls and other interleavings. Each handler runs to completion, except that `handleSubmit` is split into `SubmitStart` and `SubmitFinish`.
- Request order under interleaving: the split point of `handleSubmit` lies before its first request. The program sends that request (the upload POST, or the PATCH when no upload is due) before it first yields. A handler run between `Engine.App.SubmitStart` and `Engine.App.SubmitFinish` therefore logs its requests before that first request, where the program would log them after it. The order of a submit's own requests is modelled exactly.
- The `form` slot, `handleFormChange`, the effect that refills the form from the selected record (src/App.jsx:222-232), and the upload's write-back of `secure_url` into the form. The submit handler takes the form as a parameter.
- `setUploading`, whose value is never read.
- The edit-panel toggle and the refresh button's JSX; the refresh button calls `Engine.App.Fetch`.
- `API_URL`'s trailing-slash stripping and the request headers; requests are logged without URL or headers.
- Record fields other than `id`, `name`, `type` and `description`. Identifiers are modelled as strings.
- Text.LowerChar: lower-cases ASCII letters only, where `toLowerCase` also maps non-ASCII letters.
- Text.Trim: works on Unicode code points rather than UTF-16 code units, so lone surrogates are not distinguished.
- Sync.PreparedImage: treats `secure_url` as an optional string; a non-string value in the reply is not modelled.
- `api/characters.js` (the CORS proxy), `vite.config.js` and `src/main.jsx`, which are server plumbing, build configuration and bootstrapping.
