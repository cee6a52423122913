/** The JSON file helpers of the serverless handlers. Every path is mapped
    under /tmp, the only writable directory there. The file system is a
    map from resolved path to stored value; whether a read or write throws
    (missing directory, unparsable text, full disk) is an input. */
module Files {
  import opened Text

  const TmpRoot: string := "/tmp"

  /** The path the helpers actually touch. */
  function TmpPath(p: string): (r: string)
    ensures StartsWith(r, TmpRoot)
  {
    if StartsWith(p, TmpRoot) then p else TmpRoot + p
  }

  /** A path already under /tmp is unchanged, any other gets exactly
      "/tmp" in front, and so mapping twice is mapping once. */
  lemma TmpPathCases(p: string)
    ensures StartsWith(p, TmpRoot) ==> TmpPath(p) == p
    ensures !StartsWith(p, TmpRoot) ==> TmpPath(p) == TmpRoot + p && |TmpPath(p)| == |p| + 4
    ensures TmpPath(TmpPath(p)) == TmpPath(p)
  {
    var r := TmpPath(p);
    assert r[..|TmpRoot|] == TmpRoot;
  }

  /** `readJSON(path, default)`: the stored value, or the default when the
      file does not exist or reading or parsing it throws. */
  function ReadJSON<T>(disk: map<string, T>, path: string, default: T, fails: bool): (r: T)
    ensures !fails && TmpPath(path) in disk ==> r == disk[TmpPath(path)]
    ensures fails || TmpPath(path) !in disk ==> r == default
  {
    if !fails && TmpPath(path) in disk then disk[TmpPath(path)] else default
  }

  /** `writeJSON(path, data)`: the new disk and the returned flag, true on
      success and false when the write throws (the disk is then as it was). */
  function WriteJSON<T>(disk: map<string, T>, path: string, data: T, fails: bool): (r: (map<string, T>, bool))
    ensures r.1 == !fails
    ensures r.1 ==> TmpPath(path) in r.0 && r.0[TmpPath(path)] == data
    ensures r.1 ==> forall q :: q in disk && q != TmpPath(path) ==> q in r.0 && r.0[q] == disk[q]
    ensures !r.1 ==> r.0 == disk
  {
    if fails then (disk, false) else (disk[TmpPath(path) := data], true)
  }

  /** A successful write is read back, under its own name or its /tmp
      name alike, and leaves every other file's content as it was. */
  lemma ReadAfterWrite<T>(disk: map<string, T>, path: string, data: T, other: string, default: T)
    ensures ReadJSON(WriteJSON(disk, path, data, false).0, path, default, false) == data
    ensures ReadJSON(WriteJSON(disk, path, data, false).0, TmpPath(path), default, false) == data
    ensures TmpPath(other) != TmpPath(path) ==>
              ReadJSON(WriteJSON(disk, path, data, false).0, other, default, false) == ReadJSON(disk, other, default, false)
  {
    TmpPathCases(path);
  }
}
