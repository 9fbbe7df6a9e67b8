/** The paginated query: the same organisation filter, then a page cut from the
    filtered folders, returned together with the index where the next page starts. */
module FoldersPagination {
  import opened FolderTypes
  import opened Folders

  /** One page and the cursor (the end of the page) to pass as the next start index. */
  datatype Page = Page(folders: seq<Folder>, nextIndex: int)

  /** The three results of the paginated query: a response or none, the next
      index (-1 on error), and an error or none. */
  datatype PagedResponse = PagedResponse(response: Option<FetchFolderResponse>, nextIndex: int, err: Option<FetchError>)

  function Min(a: int, b: int): int
  {
    if a <= b then a else b
  }

  /** The bounds policy applied to the filtered folders. (-1, -1) asks for
      everything; any other negative bound is invalid; a start past the end is
      out of range; otherwise the page runs from the start to the start plus the
      page size, cut short at the end of the list. */
  function PageOf(filtered: seq<Folder>, startIndex: int, pageSize: int): (r: Result<Page>)
    ensures r.Ok? ==> 0 <= |r.value.folders| <= r.value.nextIndex <= |filtered|
    ensures r.Ok? ==> r.value.folders == filtered[r.value.nextIndex - |r.value.folders|..r.value.nextIndex]
    ensures r.Ok? && pageSize >= 0 ==> |r.value.folders| <= pageSize
  {
    if startIndex < 0 || pageSize < 0 then
      if startIndex == -1 && pageSize == -1 then Ok(Page(filtered, |filtered|))
      else Err(InvalidPagination(startIndex, pageSize))
    else if startIndex > |filtered| then Err(StartBeyondLength(startIndex))
    else
      var endIndex := if startIndex + pageSize > |filtered| then |filtered| else startIndex + pageSize;
      Ok(Page(filtered[startIndex..endIndex], endIndex))
  }

  /** The contract FetchAllFoldersByOrgIDPaginzed is meant to keep: the fetch
      of the unpaginated query first, so that a failed load is reported whatever
      the bounds, and the bounds policy only on its result. */
  function FetchPage(source: DataSource, orgId: Uuid, startIndex: int, pageSize: int): Result<Page>
  {
    match FetchAll(source, orgId)
    case Err(e) => Err(e)
    case Ok(filtered) => PageOf(filtered, startIndex, pageSize)
  }

  /** The sentinel (-1, -1) returns the whole filtered list, with its length as the cursor. */
  lemma PageOfEverything(filtered: seq<Folder>)
    ensures PageOf(filtered, -1, -1) == Ok(Page(filtered, |filtered|))
  {
  }

  /** When the call fails: exactly for negative bounds other than the sentinel,
      and for a start past the end of the filtered list. */
  lemma PageOfErrors(filtered: seq<Folder>, startIndex: int, pageSize: int)
    ensures PageOf(filtered, startIndex, pageSize).Err? <==>
              ((startIndex < 0 || pageSize < 0) && !(startIndex == -1 && pageSize == -1))
              || (startIndex >= 0 && pageSize >= 0 && startIndex > |filtered|)
    ensures (startIndex < 0 || pageSize < 0) && !(startIndex == -1 && pageSize == -1) ==>
              PageOf(filtered, startIndex, pageSize) == Err(InvalidPagination(startIndex, pageSize))
    ensures startIndex >= 0 && pageSize >= 0 && startIndex > |filtered| ==>
              PageOf(filtered, startIndex, pageSize) == Err(StartBeyondLength(startIndex))
  {
  }

  /** With valid bounds the page is the slice from the start to the clamped end,
      of length min(pageSize, |filtered| - startIndex), and the clamped end is the cursor. */
  lemma PageOfSlice(filtered: seq<Folder>, startIndex: int, pageSize: int)
    requires 0 <= startIndex <= |filtered| && 0 <= pageSize
    ensures var endIndex := Min(startIndex + pageSize, |filtered|);
            PageOf(filtered, startIndex, pageSize) == Ok(Page(filtered[startIndex..endIndex], endIndex))
    ensures |PageOf(filtered, startIndex, pageSize).value.folders| == Min(pageSize, |filtered| - startIndex)
  {
  }

  /** Starting exactly at the end gives an empty last page, not an error. */
  lemma PageOfAtEnd(filtered: seq<Folder>, pageSize: int)
    requires 0 <= pageSize
    ensures PageOf(filtered, |filtered|, pageSize) == Ok(Page([], |filtered|))
  {
  }

  /** Two calls, the second starting at the cursor the first returned, give
      adjacent pages that together are the slice twice the page size long
      (cut short at the end). */
  lemma ConsecutivePages(filtered: seq<Folder>, startIndex: int, pageSize: int)
    requires 0 <= startIndex <= |filtered| && 0 <= pageSize
    ensures var first := PageOf(filtered, startIndex, pageSize);
            && first.Ok?
            && var second := PageOf(filtered, first.value.nextIndex, pageSize);
            && second.Ok?
            && first.value.folders + second.value.folders == filtered[startIndex..Min(startIndex + 2 * pageSize, |filtered|)]
            && second.value.nextIndex == Min(startIndex + 2 * pageSize, |filtered|)
  {
    var e1 := Min(startIndex + pageSize, |filtered|);
    var e2 := Min(e1 + pageSize, |filtered|);
    assert e2 == Min(startIndex + 2 * pageSize, |filtered|);
    assert filtered[startIndex..e1] + filtered[e1..e2] == filtered[startIndex..e2];
  }

  /** Two disjoint ranges of a list with unique identifiers share no identifier. */
  lemma DisjointRangesShareNoId(s: seq<Folder>, lo: int, mid: int, hi: int)
    requires UniqueIds(s) && 0 <= lo <= mid <= hi <= |s|
    ensures forall i, j :: 0 <= i < mid - lo && 0 <= j < hi - mid ==> s[lo..mid][i].id != s[mid..hi][j].id
  {
    forall i, j | 0 <= i < mid - lo && 0 <= j < hi - mid
      ensures s[lo..mid][i].id != s[mid..hi][j].id
    {
      assert s[lo..mid][i] == s[lo + i];
      assert s[mid..hi][j] == s[mid + j];
    }
  }

  /** On a dataset with unique identifiers, two consecutive pages of the same
      organisation share no folder identifier. */
  lemma ConsecutivePagesShareNoId(data: seq<Folder>, orgId: Uuid, startIndex: int, pageSize: int)
    requires UniqueIds(data)
    requires 0 <= startIndex <= |Filter(data, orgId)| && 0 <= pageSize
    ensures var first := FetchPage(Loaded(data), orgId, startIndex, pageSize);
            && first.Ok?
            && var second := FetchPage(Loaded(data), orgId, first.value.nextIndex, pageSize);
            && second.Ok?
            && forall i, j :: 0 <= i < |first.value.folders| && 0 <= j < |second.value.folders| ==>
                 first.value.folders[i].id != second.value.folders[j].id
  {
    var filtered := Filter(data, orgId);
    FilterKeepsIdsUnique(data, orgId);
    var e1 := Min(startIndex + pageSize, |filtered|);
    var e2 := Min(e1 + pageSize, |filtered|);
    PageOfSlice(filtered, startIndex, pageSize);
    PageOfSlice(filtered, e1, pageSize);
    assert FetchPage(Loaded(data), orgId, startIndex, pageSize) == Ok(Page(filtered[startIndex..e1], e1));
    assert FetchPage(Loaded(data), orgId, e1, pageSize) == Ok(Page(filtered[e1..e2], e2));
    DisjointRangesShareNoId(filtered, startIndex, e1, e2);
  }

  /** What a caller collects by paging from `startIndex` with a positive page
      size, each call starting at the cursor the previous call returned, until
      the cursor reaches the end. */
  ghost function Sweep(filtered: seq<Folder>, startIndex: int, pageSize: int): seq<Folder>
    requires 0 <= startIndex <= |filtered| && 0 < pageSize
    decreases |filtered| - startIndex
  {
    if startIndex == |filtered| then []
    else
      var page := PageOf(filtered, startIndex, pageSize).value;
      page.folders + Sweep(filtered, page.nextIndex, pageSize)
  }

  /** A full pagination sweep returns every remaining folder once, in order:
      no folder is skipped and none is repeated. */
  lemma {:induction false} SweepCoversRest(filtered: seq<Folder>, startIndex: int, pageSize: int)
    requires 0 <= startIndex <= |filtered| && 0 < pageSize
    ensures Sweep(filtered, startIndex, pageSize) == filtered[startIndex..]
    decreases |filtered| - startIndex
  {
    if startIndex < |filtered| {
      var endIndex := Min(startIndex + pageSize, |filtered|);
      SweepCoversRest(filtered, endIndex, pageSize);
      assert filtered[startIndex..endIndex] + filtered[endIndex..] == filtered[startIndex..];
    }
  }

  /** A page size of 0 gives an empty page and leaves the cursor where it was,
      so a sweep with page size 0 never reaches the end of a non-empty rest. */
  lemma PageOfZeroSize(filtered: seq<Folder>, startIndex: int)
    requires 0 <= startIndex <= |filtered|
    ensures PageOf(filtered, startIndex, 0) == Ok(Page([], startIndex))
  {
  }

  /** A failed load is reported before the bounds are looked at, even for invalid bounds. */
  lemma FetchPageLoadFailureFirst(cause: string, orgId: Uuid, startIndex: int, pageSize: int)
    ensures FetchPage(LoadFailed(cause), orgId, startIndex, pageSize) == Err(DataSourceError(cause))
  {
  }

  /** The paginated query with the sentinel agrees with the unpaginated query. */
  lemma FetchPageEverythingIsFetchAll(source: DataSource, orgId: Uuid)
    ensures FetchAll(source, orgId).Ok? <==> FetchPage(source, orgId, -1, -1).Ok?
    ensures FetchAll(source, orgId).Ok? ==>
              FetchPage(source, orgId, -1, -1) == Ok(Page(FetchAll(source, orgId).value, |FetchAll(source, orgId).value|))
  {
  }

  /** GetFoldersPaginized over FetchAllFoldersByOrgIDPaginzed as the code is
      written. A panic while loading is recovered into a local variable, so the
      fetch returns its zero results: no folders, cursor 0 and no error. The
      wrapper then sees no error and returns a response with no folders and
      cursor 0. A successful load behaves as in the intended query. */
  function GetFoldersPaginizedAsWritten(source: DataSource, req: FetchFolderRequest, startIndex: int, pageSize: int): (r: PagedResponse)
  {
    match source
    case LoadFailed(_) => PagedResponse(Some(FetchFolderResponse([])), 0, None)
    case Loaded(_) => GetFoldersPaginized(source, req, startIndex, pageSize)
  }

  /** As written, a failed load looks like a successful first page of an empty
      dataset, even for bounds that are invalid; the intended query reports the
      load error with cursor -1. */
  lemma PagedFailureSwallowedAsWritten(cause: string, req: FetchFolderRequest)
    ensures GetFoldersPaginizedAsWritten(LoadFailed(cause), req, -2, -2) == PagedResponse(Some(FetchFolderResponse([])), 0, None)
    ensures GetFoldersPaginizedAsWritten(LoadFailed(cause), req, -2, -2) == GetFoldersPaginizedAsWritten(Loaded([]), req, 0, 10)
    ensures GetFoldersPaginized(LoadFailed(cause), req, -2, -2) == PagedResponse(None, -1, Some(DataSourceError(cause)))
  {
  }

  /** The scanning loop, then the bounds checks, then the slice. The end index
      is first the start plus the page size and is then clamped to the length. */
  method FetchAllFoldersByOrgIDPaginzed(source: DataSource, orgId: Uuid, startIndex: int, pageSize: int)
    returns (folders: seq<Folder>, nextIndex: int, err: Option<FetchError>)
    ensures err.None? <==> FetchPage(source, orgId, startIndex, pageSize).Ok?
    ensures err.None? ==> FetchPage(source, orgId, startIndex, pageSize) == Ok(Page(folders, nextIndex))
    ensures err.Some? ==> FetchPage(source, orgId, startIndex, pageSize) == Err(err.value)
    ensures err.Some? ==> folders == [] && nextIndex == -1
  {
    if source.LoadFailed? {
      return [], -1, Some(DataSourceError(source.cause));
    }
    var all := source.folders;
    var resFolder: seq<Folder> := [];
    for i := 0 to |all|
      invariant resFolder == Filter(all[..i], orgId)
    {
      assert all[..i + 1][..i] == all[..i];
      if all[i].orgId == orgId {
        resFolder := resFolder + [all[i]];
      }
    }
    assert all[..|all|] == all;

    if startIndex < 0 || pageSize < 0 {
      if startIndex == -1 && pageSize == -1 {
        return resFolder, |resFolder|, None;
      }
      return [], -1, Some(InvalidPagination(startIndex, pageSize));
    }

    var endIndex := startIndex + pageSize;
    if startIndex > |resFolder| {
      return [], -1, Some(StartBeyondLength(startIndex));
    }
    if endIndex > |resFolder| {
      endIndex := |resFolder|;
    }
    return resFolder[startIndex..endIndex], endIndex, None;
  }

  /** The request-level paginated query: on any error no response and cursor -1;
      otherwise the page in a response and the cursor unchanged. */
  function GetFoldersPaginized(source: DataSource, req: FetchFolderRequest, startIndex: int, pageSize: int): (r: PagedResponse)
    ensures r.err.Some? <==> FetchPage(source, req.orgId, startIndex, pageSize).Err?
    ensures r.err.Some? ==> r.response.None? && r.nextIndex == -1
    ensures r.err.Some? ==> r.err.value == FetchPage(source, req.orgId, startIndex, pageSize).error
    ensures r.err.None? ==>
              && var page := FetchPage(source, req.orgId, startIndex, pageSize).value;
              && r.response == Some(FetchFolderResponse(page.folders))
              && r.nextIndex == page.nextIndex
    ensures source.LoadFailed? ==> r.err == Some(DataSourceError(source.cause))
  {
    match FetchPage(source, req.orgId, startIndex, pageSize)
    case Err(e) => PagedResponse(None, -1, Some(e))
    case Ok(page) => PagedResponse(Some(FetchFolderResponse(page.folders)), page.nextIndex, None)
  }
}
