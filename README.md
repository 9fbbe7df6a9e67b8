# Folder queries by organisation, modelled in Dafny

The `folders` package answers two questions about an in-memory list of folder
records.

- **Unpaginated query.** `GetAllFolders` calls `FetchAllFoldersByOrgID`. It scans
  the whole dataset once and keeps, in dataset order, every folder whose
  organisation is the one requested. The `Deleted` flag is carried but never
  consulted.
- **Paginated query.** `GetFoldersPaginized` calls
  `FetchAllFoldersByOrgIDPaginzed`. It runs the same filter and then applies a
  bounds policy:
  - `(-1, -1)` means "everything".
  - Any other negative bound is an error.
  - A start index past the number of matches is an error.
  - Otherwise the result is the slice from the start index to the start index
    plus the page size, clamped to the end of the list. The clamped end is
    returned as the cursor for the next call.

The model has four modules:

- `FolderTypes` (`types.dfy`): the `Folder` record, the request and response
  wrappers, the data source and the error kinds. Identifiers are an opaque type
  `Uuid` with equality.
- `Folders` (`folders.dfy`): the filter `Filter`, as a recursive specification
  function with its lemmas. It also holds the scanning loop
  `FetchAllFoldersByOrgID`, which is a method proved equal to the specification,
  and `GetAllFolders`.
- `FoldersPagination` (`folders_pagination.dfy`): the bounds policy `PageOf`,
  the composed query `FetchPage`, and the method
  `FetchAllFoldersByOrgIDPaginzed`. The method repeats the scanning loop, then
  the checks, then the clamp of the end index, and is proved equal to the
  specification. The module also holds `GetFoldersPaginized` and the lemmas
  about consecutive pages and full sweeps.
- `FoldersScenarios` (`folders_scenarios.dfy`): the situations the package's
  tests check. They are stated on a synthetic three-folder dataset, and on any
  dataset with 666 folders for one organisation.

The dataset loader reads a JSON file next to the source. In the model it becomes
a parameter: `DataSource = Loaded(folders) | LoadFailed(cause)`. Go's
`(nil, err)` result pairs become `Result`. Go's `(nil, -1, err)` triples stay
triples, so the `-1` cursor on error is part of the model: they are the method's
three out-parameters and the `PagedResponse` record.

## Model

| member | source | states |
|---|---|---|
| `Folders.Filter` | folders/folders.go:125-130 | the result is never longer than the dataset, and every folder in it belongs to the requested organisation |
| `Folders.FilterMembers` | folders/folders.go:126-128 | a folder is in the result exactly when it is in the dataset and its organisation matches; its `deleted` flag plays no part |
| `Folders.FilterCounts` | folders/folders.go:125-130 | each folder of the organisation appears in the result exactly as often as in the dataset, and no other folder appears: no folder is dropped or duplicated |
| `Folders.FilterSelectsMatchPositions` | folders/folders.go:125-130 | the result is the dataset read at exactly the matching positions, in increasing order. It is an order-preserving subsequence, and its length is the number of matches |
| `Folders.FilterAppend` | folders/folders.go:126-130 | filtering a concatenation is the concatenation of the filtered parts, which is why a single forward scan suffices |
| `Folders.FilterEmptyIffNoMatch` | folders/folders.go:125-131 | the result is empty if and only if no folder of the dataset belongs to the organisation |
| `Folders.FilterKeepsAllMatching` | folders/folders.go:126-130 | a dataset whose folders all belong to the organisation is returned unchanged |
| `Folders.FilterIdempotent` | folders/folders.go:126-130 | filtering the result again by the same organisation returns it unchanged |
| `Folders.FilterIgnoresDeleted` | folders/folders.go:127 | changing only `deleted` flags in the dataset changes the result only in those flags, position by position |
| `Folders.FilterKeepsIdsUnique` | folders/folders.go:126-130 | if identifiers are unique in the dataset, they are unique in the result |
| `Folders.FetchAllFoldersByOrgID` | folders/folders.go:102-132 | the loop, which starts from an empty list and appends the matches, returns the filtered folders; a failed load returns its error |
| `Folders.FetchAllReportsFailure` | folders/folders.go:117-122 | a failed load is reported as an error carrying its cause, and it differs from the answer for any dataset, including one without matches |
| `Folders.FailureSwallowedAsWritten` | folders/folders.go:111-122 | as written, a failed load gives the same answer as an empty dataset: no folders and no error |
| `Folders.GetAllFolders` | folders/folders.go:40-74 | an error exactly when the load failed, and then that error; otherwise a response whose folders are exactly the filtered folders |
| `FoldersPagination.PageOf` | folders/folders_pagination.go:47-63 | a successful page is a contiguous run of the filtered folders that ends at the returned cursor, the cursor lies within the list, and the page is never longer than a non-negative page size |
| `FoldersPagination.PageOfEverything` | folders/folders_pagination.go:47-49 | `(-1, -1)` returns the whole filtered list, with its length as the cursor |
| `FoldersPagination.PageOfErrors` | folders/folders_pagination.go:47-58 | the call fails exactly for negative bounds other than `(-1, -1)`, which give the invalid-bounds error with both values, and for a start past the end, which gives the out-of-range error with the start |
| `FoldersPagination.PageOfSlice` | folders/folders_pagination.go:55-63 | with valid bounds the page is the slice from the start to `min(start + size, len)`, the cursor is that end, and the length is `min(size, len - start)` |
| `FoldersPagination.PageOfAtEnd` | folders/folders_pagination.go:55-63 | a start equal to the number of matches gives an empty page with that number as the cursor, not an error |
| `FoldersPagination.ConsecutivePages` | folders/folders_pagination.go:55-63 | a second call that starts at the first call's cursor succeeds. The two pages together are the slice from the start to `min(start + 2 * size, len)`, and that bound is the second cursor |
| `FoldersPagination.ConsecutivePagesShareNoId` | folders/folders_test.go:133-160 | on a dataset with unique identifiers, two consecutive pages share no folder identifier |
| `FoldersPagination.PageOfZeroSize` | folders/folders_pagination.go:55-63 | a page size of 0 gives an empty page and leaves the cursor at the start, so repeated calls with size 0 never advance |
| `FoldersPagination.SweepCoversRest` | folders/folders_pagination.go:55-63 | paging with a positive page size from a start index until the cursor reaches the end collects every remaining filtered folder exactly once, in order |
| `FoldersPagination.FetchPageLoadFailureFirst` | folders/folders_pagination.go:34-45 | a failed load is reported before the bounds are examined, whatever the bounds |
| `FoldersPagination.FetchPageEverythingIsFetchAll` | folders/folders_pagination.go:40-49 | with `(-1, -1)` the paginated query succeeds exactly when the unpaginated one does, and returns its folders with their count as the cursor |
| `FoldersPagination.PagedFailureSwallowedAsWritten` | folders/folders_pagination.go:9-37 | as written, a failed load with bounds `(-2, -2)` gives a response with no folders, cursor 0 and no error, the same answer as the first page of an empty dataset; the intended query gives no response, cursor -1 and the load error |
| `FoldersPagination.FetchAllFoldersByOrgIDPaginzed` | folders/folders_pagination.go:21-64 | the loop, the checks and the clamp compute the page and cursor of the specification. On any error the method returns no folders, cursor -1 and that error |
| `FoldersPagination.GetFoldersPaginized` | folders/folders_pagination.go:9-19 | on any error there is no response, the cursor is -1 and the error is passed on, a failed load first; otherwise the page is wrapped in a response and the cursor is passed on unchanged |
| `FoldersScenarios.FilterSingle` | folders/folders.go:126-128 | a one-folder dataset keeps its folder exactly when the organisation matches |
| `FoldersScenarios.SampleFilter` | folders/folders.go:125-130 | on the sample, each organisation gets its own folders in dataset order, deleted ones included, and an unknown organisation gets none |
| `FoldersScenarios.SampleGetAllFolders` | folders/folders_test.go:14-54 | on the sample, the unpaginated query returns both folders of one organisation, and an empty response without error for an organisation with no folders |
| `FoldersScenarios.SamplePaginizedEverything` | folders/folders_test.go:58-99 | with `(-1, -1)` the sample returns every folder of the organisation with their count as the cursor, or an empty page with cursor 0 |
| `FoldersScenarios.SamplePaginizedPages` | folders/folders_test.go:121-161 | pages of one folder advance the cursor 0, 1, 2, and a start at the end gives an empty page |
| `FoldersScenarios.SamplePaginizedErrors` | folders/folders_test.go:162-191 | `(0, -1)`, `(-1, 10)` and `(-2, -2)` give the invalid-bounds error, and a start past the end gives the out-of-range error, each with no response and cursor -1 |
| `FoldersScenarios.SixHundredSixtySix` | folders/folders_test.go:100-119 | with 666 matching folders: everything is 666 folders with cursor 666; pages of 10 end at 10 and then 20; a page of 10 from 660 holds 6 folders and ends at 666 |

## Left out

- Loading the dataset (`GetSampleData` in folders/static.go) is not modelled. It locates the file through the runtime, opens and decodes the JSON, prints paths, and panics on a missing file. It is replaced by the `DataSource` parameter. Because that loader ignores decoding errors, a malformed document would arrive as a `Loaded` dataset; only a load that fails is `LoadFailed`.
- `GenerateData`, `PrettyPrint` and `main.go` are not modelled. They produce random data, marshal JSON or print to the console, so there is no contract to state.
- Go's `panic`/`recover` runtime is not modelled. The main model uses the intended contract, where a failed load propagates as `DataSourceError`. The Go behaviour is recorded in `FetchAllAsWritten` and `GetFoldersPaginizedAsWritten` (see Findings).
- UUIDs are an opaque type with equality. Their format and parsing are not modelled.
- Slices of folder pointers become sequences of folder values. Nothing is mutated, so pointer identity is never observable. The distinction between a nil slice and an empty slice is also not modelled: every error path returns the empty sequence, and a response holding a nil slice is a response with no folders.
- Error messages are modelled as typed errors carrying the values the message prints. The message text is not modelled.
- `FoldersPagination.SweepCoversRest`: the full-sweep guarantee holds only for a positive page size. With size 0 the cursor never moves (`PageOfZeroSize`), so a caller that pages until the end never terminates on a non-empty rest.
- `FoldersPagination.FetchAllFoldersByOrgIDPaginzed`: `startIndex + pageSize` uses unbounded integers. With Go's 64-bit `int`, a sum past the maximum wraps to a negative end index. That index escapes the clamp, the slice then panics, and the recover turns the panic into an empty result with no error.
- The 666 and 0 counts in the tests come from a sample file that is not part of this model. `SixHundredSixtySix` states them for any dataset with 666 matches, and the sample scenarios use a three-folder synthetic dataset.

## Findings

| source | as written | input that shows it | evidently intended | confidence | as-written member | corrected member |
|---|---|---|---|---|---|---|
| folders/folders.go:111-122 | the deferred `recover` assigns to the local `err`, and the results are unnamed, so a panic while loading returns `(nil, nil)`. The check at line 120 can never fire | a missing sample file: the caller gets no folders and no error, the same as for an organisation without folders | the load failure is returned as an error, as `GetAllFolders` expects at lines 55-57 | high, not executed | `Folders.FailureSwallowedAsWritten` | `Folders.FetchAllReportsFailure` |
| folders/folders_pagination.go:28-37 | the same deferred `recover`: a panic while loading returns `(nil, 0, nil)`, and the check at line 36 can never fire | a missing sample file with bounds `(-2, -2)`: a response with no folders, cursor 0 and no error, the same as the first page of an organisation without folders | the load failure is returned as an error with cursor -1, before the bounds are examined | high, not executed | `FoldersPagination.PagedFailureSwallowedAsWritten` | `FoldersPagination.FetchPageLoadFailureFirst` |
