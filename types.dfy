/** The records the folder queries work on: the folder itself, the request and
    response wrappers, the data source that stands in for the JSON loader, and
    the kinds of error the queries report. */
module FolderTypes {

  /** A UUID. Only equality between identifiers matters to the queries, so the
      textual format and its parsing are not modelled. */
  type Uuid(==)

  /** One folder record; `deleted` is a soft-delete marker that no query consults. */
  datatype Folder = Folder(id: Uuid, name: string, orgId: Uuid, deleted: bool)

  /** The request carries only the organisation; it is a record so that fields can be added later. */
  datatype FetchFolderRequest = FetchFolderRequest(orgId: Uuid)

  datatype FetchFolderResponse = FetchFolderResponse(folders: seq<Folder>)

  /** What loading the dataset produced: every folder in the order of the
      document, or a failure together with what caused it. */
  datatype DataSource = Loaded(folders: seq<Folder>) | LoadFailed(cause: string)

  datatype FetchError =
    | DataSourceError(cause: string)                    // loading the dataset failed
    | InvalidPagination(startIndex: int, pageSize: int) // negative bounds other than (-1, -1)
    | StartBeyondLength(startIndex: int)                // the page would start past the last match

  datatype Option<+T> = None | Some(value: T)

  datatype Result<+T> = Ok(value: T) | Err(error: FetchError)

  /** The dataset invariant: no two folders share an identifier. */
  ghost predicate UniqueIds(s: seq<Folder>)
  {
    forall i, j :: 0 <= i < j < |s| ==> s[i].id != s[j].id
  }
}
