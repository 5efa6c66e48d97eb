/**
 Folder and file listing: `get_folder` (office365sdk.py lines 189-223) and
 `get_files_in_folder` (lines 225-284). The SDK queries are abstracted away:
 the caller supplies the items a query returned, in the order returned, and
 the session whose context the queries go through.
 */
module Listing {
  import opened Wrappers
  import opened Text
  import opened Paths
  import opened Summaries
  import opened Session
  import Scan

  /** `FileSystemObjectType` of a list item. */
  datatype ObjectType = Invalid | FileObject | FolderObject | WebObject

  /** A document-library item with its `Folder` and `File` expansions. */
  datatype ListItem = ListItem(kind: ObjectType, folder: FolderInfo, file: FileInfo)

  /** An item whose folder URL contains `folderPath` (`folder_path in item.folder.serverRelativeUrl`). */
  predicate FolderMatches(item: ListItem, folderPath: string)
  {
    Contains(item.folder.serverRelativeUrl, folderPath)
  }

  /** The scan of lines 219-221: the folder of the first item, in list order,
      whose folder URL contains `folderPath`. */
  function FindFolder(items: seq<ListItem>, folderPath: string): (r: Option<FolderInfo>)
    ensures r.None? <==> forall i :: 0 <= i < |items| ==> !FolderMatches(items[i], folderPath)
    ensures r.Some? ==>
              exists i :: 0 <= i < |items| && FolderMatches(items[i], folderPath) && r.value == items[i].folder &&
                          forall j :: 0 <= j < i ==> !FolderMatches(items[j], folderPath)
  {
    match Scan.FirstIndex(items, (item: ListItem) => FolderMatches(item, folderPath))
    case None => None
    case Some(i) => Some(items[i].folder)
  }

  /** `get_folder` exactly as written: an empty path yields `None`; a bare
      library name raises at line 209, connected or not; a path with a folder
      part raises at line 211 on an unconnected session, and otherwise yields
      the first matching folder's summary, or `None`. */
  function GetFolderAsWritten(site: Site, inputPath: string, items: seq<ListItem>): (r: Result<Option<Summary>, Fault>)
    ensures inputPath == "" ==> r == Ok(None)
    ensures inputPath != "" && Separator !in inputPath ==> r == Err(GetDocLibArity)
    ensures Separator in inputPath && site.ctx.None? ==> r == Err(NotConnected)
    ensures Separator in inputPath && site.ctx.Some? ==>
              r.Ok? && (r.value.Some? <==> exists i :: 0 <= i < |items| && FolderMatches(items[i], FolderPath(inputPath)))
    ensures Separator in inputPath && r.Ok? && r.value.Some? ==>
              exists i :: 0 <= i < |items| && FolderMatches(items[i], FolderPath(inputPath)) &&
                          r.value.value == FolderSummary(site.siteUrl, items[i].folder) &&
                          forall j :: 0 <= j < i ==> !FolderMatches(items[j], FolderPath(inputPath))
  {
    if inputPath == "" then Ok(None)
    else
      var folderPath := FolderPath(inputPath);
      if folderPath == "" then Err(GetDocLibArity)
      else if site.ctx.None? then Err(NotConnected)
      else FolderLookup(site, items, folderPath)
  }

  /** The query of lines 211-223 on a connected session: the summary of the
      first item whose folder URL contains `folderPath`, or `None`. */
  function FolderLookup(site: Site, items: seq<ListItem>, folderPath: string): (r: Result<Option<Summary>, Fault>)
    ensures r.Ok?
    ensures r.value.Some? <==> exists i :: 0 <= i < |items| && FolderMatches(items[i], folderPath)
    ensures r.value.Some? ==>
              exists i :: 0 <= i < |items| && FolderMatches(items[i], folderPath) &&
                          r.value.value == FolderSummary(site.siteUrl, items[i].folder) &&
                          forall j :: 0 <= j < i ==> !FolderMatches(items[j], folderPath)
  {
    match FindFolder(items, folderPath)
    case None => Ok(None)
    case Some(folder) => Ok(Some(FolderSummary(site.siteUrl, folder)))
  }

  /** `Documents`, the library-only example the comment on line 207 names,
      crashes the as-written `get_folder`. */
  lemma GetFolderAsWrittenCrashesOnLibrary(site: Site, items: seq<ListItem>)
    ensures GetFolderAsWritten(site, "Documents", items) == Err(GetDocLibArity)
  {
    assert Separator !in "Documents";
  }

  /** `get_folder` as evidently intended: a bare library name yields the
      summary of that library's root folder (`root`, the SDK's answer for
      `DocLib(inputPath)`). A path with a folder part yields the summary of
      the first item whose folder URL contains the resolved folder path;
      containment, so `Shared Documents/a` also finds `.../Shared Documents/ab`
      when that item comes first. Either query raises on an unconnected session. */
  function GetFolder(site: Site, inputPath: string, root: LibraryRoot, items: seq<ListItem>): (r: Result<Option<Summary>, Fault>)
    ensures inputPath == "" ==> r == Ok(None)
    ensures r.Err? <==> inputPath != "" && site.ctx.None?
    ensures r.Err? ==> r.error == NotConnected
    ensures inputPath != "" && Separator !in inputPath && site.ctx.Some? ==>
              r == Ok(Some(LibrarySummary(site.siteUrl, root)))
    ensures Separator in inputPath && r.Ok? ==>
              (r.value.Some? <==> exists i :: 0 <= i < |items| && FolderMatches(items[i], FolderPath(inputPath)))
    ensures Separator in inputPath && r.Ok? && r.value.Some? ==>
              exists i :: 0 <= i < |items| && FolderMatches(items[i], FolderPath(inputPath)) &&
                          r.value.value == FolderSummary(site.siteUrl, items[i].folder) &&
                          forall j :: 0 <= j < i ==> !FolderMatches(items[j], FolderPath(inputPath))
    ensures Separator in inputPath && r.Ok? && r.value.Some? ==>
              Contains(r.value.value.serverRelativeUrl, FolderPath(inputPath))
  {
    if inputPath == "" then Ok(None)
    else if site.ctx.None? then Err(NotConnected)
    else
      var folderPath := FolderPath(inputPath);
      if folderPath == "" then Ok(Some(LibrarySummary(site.siteUrl, root)))
      else FolderLookup(site, items, folderPath)
  }

  /** The correction changes nothing on the inputs the source does not crash
      on at line 209: the empty path and every path with a folder part. */
  lemma GetFolderAgreesWhereSourceReturns(site: Site, inputPath: string, root: LibraryRoot, items: seq<ListItem>)
    requires inputPath == "" || Separator in inputPath
    ensures GetFolderAsWritten(site, inputPath, items) == GetFolder(site, inputPath, root, items)
  {
  }

  /** Which files a listing keeps: `None` for the whole library (the branch of
      lines 268-273), `Some(url)` for files whose URL contains the resolved
      folder's URL (lines 276-282). */
  predicate InScope(item: ListItem, scope: Option<string>)
  {
    item.kind == FileObject && (scope.None? || Contains(item.file.serverRelativeUrl, scope.value))
  }

  /** The test of either loop, as a value the scans can take. */
  function ScopeTest(scope: Option<string>): ListItem -> bool
  {
    (item: ListItem) => InScope(item, scope)
  }

  /** Some item is a file: only then does the loop of lines 277-282 reach the
      subscript of line 280. */
  predicate HasFileItem(items: seq<ListItem>)
  {
    exists i :: 0 <= i < |items| && items[i].kind == FileObject
  }

  /** The summaries the loop appends, one per kept item, in order. */
  function Summarise(siteUrl: string, kept: seq<ListItem>, tagColumnInternal: string): (r: seq<Summary>)
    ensures |r| == |kept|
    ensures forall k :: 0 <= k < |r| ==> r[k] == FileSummary(siteUrl, kept[k].file, tagColumnInternal)
  {
    seq(|kept|, k requires 0 <= k < |kept| => FileSummary(siteUrl, kept[k].file, tagColumnInternal))
  }

  /** The internal tag column name a listing resolves (lines 245-247). */
  function TagColumnInternal(fields: seq<Field>, tagColumnName: string): string
  {
    if tagColumnName != "" then LibFieldInternal(fields, tagColumnName) else ""
  }

  /** `get_files_in_folder`. `fields` are the library's columns; `items` the
      library's items as the (possibly `modified_after`-filtered) query
      returned them; `folderItems` the items the nested `get_folder` call
      scans. `None` is the result for an empty path. Line 243 raises on an
      unconnected session; line 280 raises when no folder matched and a file
      item is reached, while with no file item the loop returns `[]`. */
  function GetFilesInFolder(
    site: Site, inputPath: string, tagColumnName: string,
    fields: seq<Field>, items: seq<ListItem>, folderItems: seq<ListItem>): (r: Result<Option<seq<Summary>>, Fault>)
    ensures inputPath == "" ==> r == Ok(None)
    ensures r == Err(NotConnected) <==> inputPath != "" && site.ctx.None?
    ensures r == Err(FolderIsNone) <==>
              inputPath != "" && site.ctx.Some? && Separator in inputPath &&
              FindFolder(folderItems, FolderPath(inputPath)).None? && HasFileItem(items)
    ensures r.Err? ==> r.error == NotConnected || r.error == FolderIsNone
    ensures site.ctx.Some? && Separator in inputPath && FindFolder(folderItems, FolderPath(inputPath)).None? &&
            !HasFileItem(items)
            ==> r == Ok(Some([]))
    ensures r.Ok? && inputPath != "" ==> r.value.Some? && |r.value.value| <= |items|
    ensures r.Ok? && inputPath != "" ==>
              forall k :: 0 <= k < |r.value.value| ==>
                (r.value.value[k].tag.Some? <==> tagColumnName != "" && LibFieldInternal(fields, tagColumnName) != "")
  {
    if inputPath == "" then Ok(None)
    else if site.ctx.None? then Err(NotConnected)
    else
      var folderPath := FolderPath(inputPath);
      var tagColumnInternal := TagColumnInternal(fields, tagColumnName);
      if folderPath == "" then
        Ok(Some(Summarise(site.siteUrl, Scan.Filter(items, ScopeTest(None)), tagColumnInternal)))
      else
        // `get_folder(input_path)` resolves the same folder path and, with a
        // non-empty folder path, reduces to the scan of `FindFolder`.
        match FindFolder(folderItems, folderPath)
        case None => if HasFileItem(items) then Err(FolderIsNone) else Ok(Some([]))
        case Some(folder) =>
          Ok(Some(Summarise(site.siteUrl, Scan.Filter(items, ScopeTest(Some(folder.serverRelativeUrl))), tagColumnInternal)))
  }

  /** The scope a successful listing of `inputPath` uses; when no folder
      matched, the listing succeeds only with no file item, so any scope that
      keeps file items alone keeps nothing. */
  function ListingScope(inputPath: string, folderItems: seq<ListItem>): Option<string>
  {
    if Separator !in inputPath then None
    else
      match FindFolder(folderItems, FolderPath(inputPath))
      case None => None
      case Some(folder) => Some(folder.serverRelativeUrl)
  }

  /** A successful listing `files` is the order-preserving selection of the
      items in scope: summary `k` belongs to the `k`-th kept position, the kept
      positions increase (by `Scan.KeptIndices`), and a position is kept
      exactly when its item is a file (under the resolved folder's URL, when
      the path names a folder). */
  lemma {:induction false} GetFilesInFolderSelects(
    site: Site, inputPath: string, tagColumnName: string,
    fields: seq<Field>, items: seq<ListItem>, folderItems: seq<ListItem>, files: seq<Summary>)
    requires GetFilesInFolder(site, inputPath, tagColumnName, fields, items, folderItems) == Ok(Some(files))
    ensures var idx := Scan.KeptIndices(items, ScopeTest(ListingScope(inputPath, folderItems)));
            && |files| == |idx|
            && (forall k :: 0 <= k < |files| ==>
                  files[k] == FileSummary(site.siteUrl, items[idx[k]].file, TagColumnInternal(fields, tagColumnName)))
            && (forall i :: 0 <= i < |items| ==> (i in idx <==> InScope(items[i], ListingScope(inputPath, folderItems))))
  {
    var scope := ListingScope(inputPath, folderItems);
    var idx := Scan.KeptIndices(items, ScopeTest(scope));
    Scan.FilterIsKeptIndices(items, ScopeTest(scope));
    forall i | 0 <= i < |items|
      ensures i in idx <==> InScope(items[i], scope)
    {
      Scan.KeptIndicesExact(items, ScopeTest(scope), i);
    }
    if Separator in inputPath && FindFolder(folderItems, FolderPath(inputPath)).None? {
      // The listing returned `[]`, so no item is a file and none is kept.
      assert !HasFileItem(items);
      Scan.KeptBelowNone(items, ScopeTest(scope), |items|);
    }
  }

  /** A library-only path on a connected session lists every file item and
      nothing else. */
  lemma {:induction false} WholeLibraryListsAllFiles(
    site: Site, inputPath: string, fields: seq<Field>, items: seq<ListItem>, folderItems: seq<ListItem>)
    requires site.ctx.Some?
    requires inputPath != "" && Separator !in inputPath
    requires forall i :: 0 <= i < |items| ==> items[i].kind == FileObject
    ensures GetFilesInFolder(site, inputPath, "", fields, items, folderItems) ==
            Ok(Some(Summarise(site.siteUrl, items, "")))
  {
    Scan.FilterAll(items, ScopeTest(None));
  }

  /** With no file item among the listed items, a folder path that matches no
      folder lists nothing instead of raising. */
  lemma NoFilesNoFolderListsNothing(site: Site, inputPath: string, fields: seq<Field>, folderItems: seq<ListItem>)
    requires site.ctx.Some? && Separator in inputPath
    requires forall i :: 0 <= i < |folderItems| ==> !FolderMatches(folderItems[i], FolderPath(inputPath))
    ensures GetFilesInFolder(site, inputPath, "", fields, [], folderItems) == Ok(Some([]))
  {
  }
}
