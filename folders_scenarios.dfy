/** The situations the package's tests exercise, stated on a small synthetic
    dataset (three folders, two organisations) and on any dataset with 666
    folders for one organisation. */
module FoldersScenarios {
  import opened FolderTypes
  import opened Folders
  import opened FoldersPagination

  /** Three folders: the first and last of organisation `a` (the last one deleted),
      the middle one of organisation `b`. */
  function Sample(a: Uuid, b: Uuid, id1: Uuid, id2: Uuid, id3: Uuid): seq<Folder>
  {
    [Folder(id1, "alpha", a, false), Folder(id2, "beta", b, false), Folder(id3, "gamma", a, true)]
  }

  /** A one-folder dataset keeps its folder exactly when the organisation matches. */
  lemma FilterSingle(f: Folder, orgId: Uuid)
    ensures Filter([f], orgId) == if f.orgId == orgId then [f] else []
  {
    assert [f][..0] == [];
  }

  lemma SampleFilter(a: Uuid, b: Uuid, c: Uuid, id1: Uuid, id2: Uuid, id3: Uuid)
    requires a != b && c != a && c != b
    ensures var data := Sample(a, b, id1, id2, id3);
            && Filter(data, a) == [data[0], data[2]]
            && Filter(data, b) == [data[1]]
            && Filter(data, c) == []
  {
    var data := Sample(a, b, id1, id2, id3);
    assert data == [data[0]] + [data[1]] + [data[2]];
    forall o | o in {a, b, c}
      ensures Filter(data, o) == Filter([data[0]], o) + Filter([data[1]], o) + Filter([data[2]], o)
    {
      FilterAppend([data[0]] + [data[1]], [data[2]], o);
      FilterAppend([data[0]], [data[1]], o);
    }
    forall o, k | 0 <= k < 3
      ensures Filter([data[k]], o) == if data[k].orgId == o then [data[k]] else []
    {
      FilterSingle(data[k], o);
    }
  }

  /** The unpaginated query: both folders of `a`, the deleted one included, and
      an empty response without error for an organisation with no folder. */
  lemma SampleGetAllFolders(a: Uuid, b: Uuid, c: Uuid, id1: Uuid, id2: Uuid, id3: Uuid)
    requires a != b && c != a && c != b
    ensures var data := Sample(a, b, id1, id2, id3);
            && GetAllFolders(Loaded(data), FetchFolderRequest(a)) == Ok(FetchFolderResponse([data[0], data[2]]))
            && GetAllFolders(Loaded(data), FetchFolderRequest(c)) == Ok(FetchFolderResponse([]))
  {
    SampleFilter(a, b, c, id1, id2, id3);
  }

  /** The paginated query on the sample with the sentinel: every folder of the
      organisation, or none, with their count as the cursor. */
  lemma SamplePaginizedEverything(a: Uuid, b: Uuid, c: Uuid, id1: Uuid, id2: Uuid, id3: Uuid)
    requires a != b && c != a && c != b
    ensures var data := Sample(a, b, id1, id2, id3);
            && GetFoldersPaginized(Loaded(data), FetchFolderRequest(a), -1, -1)
                 == PagedResponse(Some(FetchFolderResponse([data[0], data[2]])), 2, None)
            && GetFoldersPaginized(Loaded(data), FetchFolderRequest(c), -1, -1)
                 == PagedResponse(Some(FetchFolderResponse([])), 0, None)
  {
    SampleFilter(a, b, c, id1, id2, id3);
  }

  /** Two pages of one folder each, then the empty page at the end. */
  lemma SamplePaginizedPages(a: Uuid, b: Uuid, c: Uuid, id1: Uuid, id2: Uuid, id3: Uuid)
    requires a != b && c != a && c != b
    ensures var data := Sample(a, b, id1, id2, id3);
            var req := FetchFolderRequest(a);
            && GetFoldersPaginized(Loaded(data), req, 0, 1) == PagedResponse(Some(FetchFolderResponse([data[0]])), 1, None)
            && GetFoldersPaginized(Loaded(data), req, 1, 1) == PagedResponse(Some(FetchFolderResponse([data[2]])), 2, None)
            && GetFoldersPaginized(Loaded(data), req, 2, 5) == PagedResponse(Some(FetchFolderResponse([])), 2, None)
  {
    SampleFilter(a, b, c, id1, id2, id3);
    var data := Sample(a, b, id1, id2, id3);
    var filtered := [data[0], data[2]];
    assert filtered[0..1] == [data[0]];
    assert filtered[1..2] == [data[2]];
    assert filtered[2..2] == [];
  }

  /** The rejected bounds: a start past the end, and negative bounds other than (-1, -1). */
  lemma SamplePaginizedErrors(a: Uuid, b: Uuid, c: Uuid, id1: Uuid, id2: Uuid, id3: Uuid)
    requires a != b && c != a && c != b
    ensures var data := Sample(a, b, id1, id2, id3);
            var req := FetchFolderRequest(a);
            && GetFoldersPaginized(Loaded(data), req, 3, 1) == PagedResponse(None, -1, Some(StartBeyondLength(3)))
            && GetFoldersPaginized(Loaded(data), req, 0, -1) == PagedResponse(None, -1, Some(InvalidPagination(0, -1)))
            && GetFoldersPaginized(Loaded(data), req, -1, 10) == PagedResponse(None, -1, Some(InvalidPagination(-1, 10)))
            && GetFoldersPaginized(Loaded(data), req, -2, -2) == PagedResponse(None, -1, Some(InvalidPagination(-2, -2)))
  {
    SampleFilter(a, b, c, id1, id2, id3);
  }

  /** With 666 folders for the organisation: the sentinel returns all 666 with
      cursor 666; pages of 10 from 0 end at 10 and then 20; a page of 10 from
      660 holds the last 6 and ends at 666. */
  lemma SixHundredSixtySix(data: seq<Folder>, orgId: Uuid)
    requires |Filter(data, orgId)| == 666
    ensures var req := FetchFolderRequest(orgId);
            && |GetAllFolders(Loaded(data), req).value.folders| == 666
            && GetFoldersPaginized(Loaded(data), req, -1, -1).nextIndex == 666
            && |GetFoldersPaginized(Loaded(data), req, -1, -1).response.value.folders| == 666
            && GetFoldersPaginized(Loaded(data), req, 0, 10).nextIndex == 10
            && |GetFoldersPaginized(Loaded(data), req, 0, 10).response.value.folders| == 10
            && GetFoldersPaginized(Loaded(data), req, 10, 10).nextIndex == 20
            && |GetFoldersPaginized(Loaded(data), req, 10, 10).response.value.folders| == 10
            && GetFoldersPaginized(Loaded(data), req, 660, 10).nextIndex == 666
            && |GetFoldersPaginized(Loaded(data), req, 660, 10).response.value.folders| == 6
  {
  }
}
