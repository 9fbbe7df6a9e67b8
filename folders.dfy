/** The unpaginated query: keep the folders of one organisation, in dataset
    order, and wrap them in a response. */
module Folders {
  import opened FolderTypes

  /** The folders of `data` that belong to `orgId`, in their order in `data`.
      It is defined from the last folder backwards, so that each step matches
      one iteration of a scan that appends the matching folders. */
  function Filter(data: seq<Folder>, orgId: Uuid): (r: seq<Folder>)
    ensures |r| <= |data|
    ensures forall k :: 0 <= k < |r| ==> r[k].orgId == orgId
    decreases |data|
  {
    if |data| == 0 then []
    else
      var kept := Filter(data[..|data| - 1], orgId);
      if data[|data| - 1].orgId == orgId then kept + [data[|data| - 1]] else kept
  }

  /** Positions listed in strictly increasing order. */
  ghost predicate Increasing(idx: seq<int>)
  {
    forall k, l :: 0 <= k < l < |idx| ==> idx[k] < idx[l]
  }

  /** `idx` lists, in increasing order, exactly the positions of `data` that hold a folder of `orgId`. */
  ghost predicate MatchPositions(data: seq<Folder>, orgId: Uuid, idx: seq<int>)
  {
    && Increasing(idx)
    && (forall k :: 0 <= k < |idx| ==> 0 <= idx[k] < |data| && data[idx[k]].orgId == orgId)
    && (forall j :: 0 <= j < |data| && data[j].orgId == orgId ==> j in idx)
  }

  /** `s` and `t` hold the same folders position by position, except perhaps for their `deleted` flags. */
  ghost predicate SameExceptDeleted(s: seq<Folder>, t: seq<Folder>)
  {
    |s| == |t| && forall k :: 0 <= k < |s| ==> s[k].(deleted := t[k].deleted) == t[k]
  }

  /** Filtering a concatenation filters each part. */
  lemma {:induction false} FilterAppend(a: seq<Folder>, b: seq<Folder>, orgId: Uuid)
    ensures Filter(a + b, orgId) == Filter(a, orgId) + Filter(b, orgId)
    decreases |b|
  {
    if |b| == 0 {
      assert a + b == a;
    } else {
      var n := |b| - 1;
      assert (a + b)[..|a + b| - 1] == a + b[..n];
      assert (a + b)[|a + b| - 1] == b[n];
      FilterAppend(a, b[..n], orgId);
    }
  }

  /** The result holds every folder of `orgId` exactly as often as `data` does, and no other folder. */
  lemma {:induction false} FilterCounts(data: seq<Folder>, orgId: Uuid, f: Folder)
    ensures multiset(Filter(data, orgId))[f] == if f.orgId == orgId then multiset(data)[f] else 0
    decreases |data|
  {
    if |data| > 0 {
      var n := |data| - 1;
      assert data == data[..n] + [data[n]];
      FilterCounts(data[..n], orgId, f);
    }
  }

  /** A folder is in the result exactly when it is in the dataset and belongs to `orgId`,
      whatever its `deleted` flag. */
  lemma FilterMembers(data: seq<Folder>, orgId: Uuid, f: Folder)
    ensures f in Filter(data, orgId) <==> f in data && f.orgId == orgId
  {
    FilterCounts(data, orgId, f);
  }

  /** The result is the dataset restricted to the positions that match, in increasing
      order: an order-preserving subsequence that keeps every match once. */
  lemma {:induction false} FilterSelectsMatchPositions(data: seq<Folder>, orgId: Uuid) returns (idx: seq<int>)
    ensures MatchPositions(data, orgId, idx)
    ensures |Filter(data, orgId)| == |idx|
    ensures forall k :: 0 <= k < |idx| ==> Filter(data, orgId)[k] == data[idx[k]]
    decreases |data|
  {
    if |data| == 0 {
      idx := [];
    } else {
      var n := |data| - 1;
      var init := data[..n];
      var idx0 := FilterSelectsMatchPositions(init, orgId);
      if data[n].orgId == orgId {
        idx := idx0 + [n];
      } else {
        idx := idx0;
      }
      forall j | 0 <= j < |data| && data[j].orgId == orgId
        ensures j in idx
      {
        if j < n {
          assert init[j] == data[j];
        }
      }
    }
  }

  /** An organisation with no folder in the dataset gets an empty result, and only such an organisation. */
  lemma FilterEmptyIffNoMatch(data: seq<Folder>, orgId: Uuid)
    ensures Filter(data, orgId) == [] <==> forall k :: 0 <= k < |data| ==> data[k].orgId != orgId
  {
    var r := Filter(data, orgId);
    if r == [] {
      forall k | 0 <= k < |data|
        ensures data[k].orgId != orgId
      {
        FilterMembers(data, orgId, data[k]);
      }
    } else {
      FilterMembers(data, orgId, r[0]);
    }
  }

  /** A dataset whose folders all belong to `orgId` passes through unchanged. */
  lemma {:induction false} FilterKeepsAllMatching(data: seq<Folder>, orgId: Uuid)
    requires forall k :: 0 <= k < |data| ==> data[k].orgId == orgId
    ensures Filter(data, orgId) == data
    decreases |data|
  {
    if |data| > 0 {
      var n := |data| - 1;
      FilterKeepsAllMatching(data[..n], orgId);
      assert data[..n] + [data[n]] == data;
    }
  }

  /** Filtering again by the same organisation changes nothing. */
  lemma FilterIdempotent(data: seq<Folder>, orgId: Uuid)
    ensures Filter(Filter(data, orgId), orgId) == Filter(data, orgId)
  {
    FilterKeepsAllMatching(Filter(data, orgId), orgId);
  }

  /** The `deleted` flags play no part in the selection: changing any of them
      changes the result only in those same flags. */
  lemma {:induction false} FilterIgnoresDeleted(data: seq<Folder>, other: seq<Folder>, orgId: Uuid)
    requires SameExceptDeleted(data, other)
    ensures SameExceptDeleted(Filter(data, orgId), Filter(other, orgId))
    decreases |data|
  {
    if |data| > 0 {
      var n := |data| - 1;
      assert SameExceptDeleted(data[..n], other[..n]);
      FilterIgnoresDeleted(data[..n], other[..n], orgId);
      assert data[n].(deleted := other[n].deleted) == other[n];
    }
  }

  /** On a dataset with unique identifiers the result has unique identifiers too. */
  lemma FilterKeepsIdsUnique(data: seq<Folder>, orgId: Uuid)
    requires UniqueIds(data)
    ensures UniqueIds(Filter(data, orgId))
  {
    var idx := FilterSelectsMatchPositions(data, orgId);
  }

  /** The contract FetchAllFoldersByOrgID is meant to keep: a failed load is
      reported as an error, otherwise the folders of `orgId` in dataset order. */
  function FetchAll(source: DataSource, orgId: Uuid): Result<seq<Folder>>
  {
    match source
    case LoadFailed(cause) => Err(DataSourceError(cause))
    case Loaded(folders) => Ok(Filter(folders, orgId))
  }

  /** A failed load and a dataset without matches give different answers. */
  lemma FetchAllReportsFailure(cause: string, data: seq<Folder>, orgId: Uuid)
    ensures FetchAll(LoadFailed(cause), orgId) == Err(DataSourceError(cause))
    ensures FetchAll(Loaded(data), orgId).Ok?
    ensures FetchAll(LoadFailed(cause), orgId) != FetchAll(Loaded(data), orgId)
  {
  }

  /** FetchAllFoldersByOrgID as the code is written. When loading panics, the
      deferred recover stores its error in a local variable rather than in a
      result (the results are unnamed), so the call returns the zero results:
      no folders and no error. */
  function FetchAllAsWritten(source: DataSource, orgId: Uuid): Result<seq<Folder>>
  {
    match source
    case LoadFailed(_) => Ok([])
    case Loaded(folders) => Ok(Filter(folders, orgId))
  }

  /** As written, a failed load cannot be told apart from an organisation without folders. */
  lemma FailureSwallowedAsWritten(cause: string, orgId: Uuid)
    ensures FetchAllAsWritten(LoadFailed(cause), orgId) == FetchAllAsWritten(Loaded([]), orgId)
    ensures FetchAll(LoadFailed(cause), orgId) != FetchAll(Loaded([]), orgId)
  {
  }

  /** The scanning loop: start from an empty (non-nil) list and append every
      folder of `orgId` while walking the dataset once. */
  method FetchAllFoldersByOrgID(source: DataSource, orgId: Uuid) returns (r: Result<seq<Folder>>)
    ensures r == FetchAll(source, orgId)
  {
    if source.LoadFailed? {
      return Err(DataSourceError(source.cause));
    }
    var folders := source.folders;
    var resFolder: seq<Folder> := [];
    for i := 0 to |folders|
      invariant resFolder == Filter(folders[..i], orgId)
    {
      assert folders[..i + 1][..i] == folders[..i];
      if folders[i].orgId == orgId {
        resFolder := resFolder + [folders[i]];
      }
    }
    assert folders[..|folders|] == folders;
    return Ok(resFolder);
  }

  /** The request-level query: a failure is passed on as it is, otherwise the
      filtered folders are wrapped in a response unchanged. */
  function GetAllFolders(source: DataSource, req: FetchFolderRequest): (r: Result<FetchFolderResponse>)
    ensures r.Err? <==> source.LoadFailed?
    ensures source.LoadFailed? ==> r == Err(DataSourceError(source.cause))
    ensures source.Loaded? ==> r == Ok(FetchFolderResponse(Filter(source.folders, req.orgId)))
  {
    match FetchAll(source, req.orgId)
    case Err(e) => Err(e)
    case Ok(folders) => Ok(FetchFolderResponse(folders))
  }
}
