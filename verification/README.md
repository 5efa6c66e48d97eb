# vowelsharepoint — a verified model of the path and listing logic

`vowelsharepoint` wraps the Office365 REST SDK in a `SharePointSite` class
(`vowelsharepoint/office365sdk.py`). Almost every method forwards to the SDK;
this project models the pure logic around those calls, with every remote
answer turned into an input:

- **Path resolution** (`Paths`): an input path such as
  `Documents/sharepoint-test-folder1` is split on its first `/` into a
  document-library name and a folder path. A library whose name *contains*
  `Documents` has its folder path re-rooted under `Shared Documents/`; any
  other path is used verbatim; a path without `/` has the empty folder path.
- **Scans** (`Scan`, `Listing`, `Summaries.LibFieldInternal`): "first item
  whose folder URL contains the folder path", "every file item whose URL
  contains the folder's URL, in order", and "first column whose title is the
  given name".
- **Summary shaping** (`Summaries`): the `site_url` / `server_relative_url` /
  `time_last_modified` / `size_bytes` dictionary, and the rule that a file
  summary has a `tag` key exactly when a tag column was resolved, holding `""`
  when the file's value is falsy.
- **Session guards** (`Session`): the credential checks of
  `connect_with_client_certificate` in their order, the case-insensitive
  site comparison of `check_connection_valid`, the early returns of
  `check_user_access_for_file` (and its coercion of every access kind to
  `OPEN_ITEMS`), and the early returns of `download_file`. Each of the last
  two also reports the remote calls it made, so "no lookup happens before the
  input checks pass" is part of the contract.

Substring tests are Python's `needle in hay` (`Text.Contains`), so the empty
string is in every string. Paths that raise in the source are modelled as
`Err` values of `Session.Fault`:
- `NotConnected`: a remote call made before a successful connect reads
  `self.ctx.web` on `None` (lines 105, 121, 211 and 243). This reaches
  `get_folder`, `get_files_in_folder`, `check_user_access_for_file` and
  `download_file` once their own input checks pass.
- `GetDocLibArity`: `get_folder` on a bare library name (see Findings).
- `FolderIsNone`: `get_files_in_folder` when its nested `get_folder` finds no
  folder. Line 280 subscripts that `None` only when the loop reaches a file
  item (the test of line 278 comes first). With no file item the loop
  returns `[]`.

The SDK's queries become parameters: `items` (the library's items in query
order), `folderItems` (the items the nested `get_folder` query returns),
`fields` (library columns), `root` (a library's root folder), optional user
and file lookups, and an optional permission set. The modules are
`Wrappers`, `Text`, `Scan`, `Paths`, `Summaries`, `Listing` and `Session`,
one file each.

## Model

| member | source | states |
|---|---|---|
| Scan.FirstIndex | vowelsharepoint/office365sdk.py:219-223 | the position found satisfies the test and no earlier position does; `None` exactly when no position does |
| Scan.FirstIndexUnique | vowelsharepoint/office365sdk.py:339-344 | any satisfying position preceded only by non-satisfying ones is the one the scan returns |
| Scan.FilterIsKeptIndices | vowelsharepoint/office365sdk.py:277-282 | the appending loop's output is, element by element, the input at the increasing positions of every element that passes the test |
| Scan.FilterAll | vowelsharepoint/office365sdk.py:270-273 | when every element passes, the loop returns the whole input |
| Paths.SplitOnce | vowelsharepoint/office365sdk.py:406-407 | `split('/', 1)` gives one part (the input) exactly when there is no separator, otherwise a separator-free head and a tail that rejoin to the input |
| Paths.DocLib | vowelsharepoint/office365sdk.py:405-407 | the library name has no `/`, is a prefix of the input, is followed by `/` when the input has one, and is the whole input exactly when it has none |
| Paths.Remainder | vowelsharepoint/office365sdk.py:410-417 | library name, `/` and remainder rejoin to the input |
| Paths.FolderPath | vowelsharepoint/office365sdk.py:409-420 | empty exactly when there is no `/`; `Shared Documents/` + remainder when the library name contains `Documents`; otherwise the input itself, which starts with library + `/` |
| Paths.ResolveJoined | vowelsharepoint/office365sdk.py:405-420 | resolving `lib/rest` (lib without `/`) returns `lib`, `rest`, and `Shared Documents/rest` or `lib/rest` by the substring rule |
| Paths.FolderPathKeepsRemainder | vowelsharepoint/office365sdk.py:416-420 | every non-empty folder path is strictly longer than, and ends with, the text after the first `/` |
| Paths.ExampleDefaultLibrary | vowelsharepoint/office365sdk.py:416-418 | `Documents/<rest>` resolves to library `Documents` and folder `Shared Documents/<rest>` |
| Paths.ExampleContainsDocuments | vowelsharepoint/office365sdk.py:416-418 | `MyDocumentsLib/<rest>` is re-rooted too: the test is containment, not equality |
| Paths.ExampleOtherLibrary | vowelsharepoint/office365sdk.py:419-420 | `my-test-doc-lib/<rest>` passes through verbatim |
| Paths.ExampleTrailingSeparator | vowelsharepoint/office365sdk.py:409-420 | `lib/` has library `lib` and the non-empty folder path `lib/` |
| Paths.ExampleLibraryOnly | vowelsharepoint/office365sdk.py:413-414 | a bare `Documents` has library `Documents` and the empty folder path |
| Summaries.LibrarySummary | vowelsharepoint/office365sdk.py:355-361 | a library summary carries the root's URL, modification time and total size, and no tag |
| Summaries.FolderSummary | vowelsharepoint/office365sdk.py:363-370 | a folder summary carries the folder's URL, modification time and file-stream size, and no tag |
| Summaries.FileSummary | vowelsharepoint/office365sdk.py:372-391 | a file summary carries URL, time and length; it has a tag exactly when the internal column name is non-empty, the tag being the property when truthy (by Python's rule for `None`, strings, numbers, booleans, lists and dicts) and `""` otherwise |
| Summaries.FileSummaryReadsOnlyTagColumn | vowelsharepoint/office365sdk.py:383-391 | properties other than the tag column never affect a file summary |
| Summaries.LibFieldInternal | vowelsharepoint/office365sdk.py:338-349 | the internal name of the first field whose title equals the name exactly, or `""` when none does |
| Summaries.LibFieldInternalFirstWins | vowelsharepoint/office365sdk.py:339-344 | fields after an earlier title match never change the answer |
| Listing.FindFolder | vowelsharepoint/office365sdk.py:219-223 | the folder of the first item whose folder URL contains the folder path; `None` exactly when no item's does |
| Listing.GetFolderAsWritten | vowelsharepoint/office365sdk.py:197-223 | empty input gives `None`; a non-empty path without `/` raises at the `get_doc_lib` call, connected or not; a path with `/` raises on an unconnected session, and otherwise returns a summary exactly when some item's folder URL contains the folder path, namely that of the first such item |
| Listing.GetFolderAsWrittenCrashesOnLibrary | vowelsharepoint/office365sdk.py:207-209 | `get_folder("Documents")` raises at the `get_doc_lib` call |
| Listing.GetFolder | vowelsharepoint/office365sdk.py:197-223 | as intended: empty input gives `None`; any other input raises exactly on an unconnected session; a bare library name gives its root's summary; otherwise a result exists exactly when some item's folder URL contains the folder path, and it is the first such item's folder summary, whose URL contains the folder path |
| Listing.GetFolderAgreesWhereSourceReturns | vowelsharepoint/office365sdk.py:211-223 | on the empty path and on every path containing `/` the source's result, an error included, is the corrected one |
| Listing.GetFilesInFolder | vowelsharepoint/office365sdk.py:236-284 | empty input gives `None`; any other input raises exactly on an unconnected session (line 243); on a connected one it raises exactly when a folder path is given, no folder matches and some item is a file (line 280), and lists nothing when no folder matches and no item is a file; otherwise the list is no longer than the items, and every summary has a tag exactly when a non-empty tag column name resolved to a non-empty internal name |
| Listing.GetFilesInFolderSelects | vowelsharepoint/office365sdk.py:266-284 | the list is the order-preserving selection of the items: summary `k` is that of the `k`-th kept position, and a position is kept exactly when its item is a file (whose URL contains the resolved folder's URL, when a folder is named) |
| Listing.WholeLibraryListsAllFiles | vowelsharepoint/office365sdk.py:268-273 | on a connected session, a bare library name over file items lists every item, in order |
| Listing.NoFilesNoFolderListsNothing | vowelsharepoint/office365sdk.py:276-284 | on a connected session, a folder path that matches no folder over a listing without items returns `[]` rather than raising |
| Scan.KeptBelowNone | vowelsharepoint/office365sdk.py:277-282 | when no element passes the test, the appending loop keeps no position |
| Session.NewSite | vowelsharepoint/office365sdk.py:422-429 | a new session has no context |
| Session.Connect | vowelsharepoint/office365sdk.py:47-76 | success exactly when all four credentials are non-empty and a context was obtained; the first empty credential in the order tenant, client, thumbprint, PEM is the reported failure; the context is set only on success |
| Session.CheckConnectionValid | vowelsharepoint/office365sdk.py:85-96 | valid exactly when there is a context whose web URL is non-empty and equals the given URL ignoring case |
| Session.ConnectThenValidate | vowelsharepoint/office365sdk.py:31-96 | a fresh session is invalid; after a successful connect to a context reporting the site URL, it is valid |
| Session.ValidityIgnoresCase | vowelsharepoint/office365sdk.py:92 | URLs equal up to case give the same validity |
| Session.CheckUserAccessForFile | vowelsharepoint/office365sdk.py:121-171 | an empty email or path returns `False` before any remote call; after those checks it raises exactly on an unconnected session (the user lookup of line 121); access is granted exactly when email and path are non-empty, the session is connected, the user and file are found, and the effective permissions contain OpenItems; the file lookup happens exactly when the user was found, the permission query exactly when the file was also found |
| Session.AccessKindIgnored | vowelsharepoint/office365sdk.py:149-151 | every requested access kind gives the same answer as `OPEN_ITEMS` |
| Session.DownloadFile | vowelsharepoint/office365sdk.py:300-326 | a missing directory returns `({}, False)` before any remote call; an existing one raises exactly on an unconnected session (the file lookup of line 105); success exactly when the directory exists and the file is found; the download happens exactly on success |
| Session.DownloadIgnoresSizeHint | vowelsharepoint/office365sdk.py:286-326 | the size argument never changes the result |

## Findings

| source | as written | input that shows it | evidently intended | confidence | as-written member | corrected member |
|---|---|---|---|---|---|---|
| vowelsharepoint/office365sdk.py:209 | `get_folder` calls `self.get_doc_lib(self.ctx, doc_lib)`, one argument more than `get_doc_lib(self, list_title)` takes, so a bare library name raises `TypeError` (and `get_doc_lib` itself, line 187, calls an undefined module-level `_get_system_object_summary`) | `get_folder("Documents")` | return the library summary `_get_system_object_summary(List, lib)` of the library's root folder, as the comment on line 207 describes | high; not executed | Listing.GetFolderAsWritten | Listing.GetFolder |

## Left out

- All Office365 SDK calls (`ClientContext`, `execute_query`, storage metrics, the user, file and permission lookups): their results are parameters.
- The not-found versus other-error mapping of `get_file_by_path` and `get_user_by_email` (lines 98-128): a not-found lookup is `None`; an error they re-raise as `ValueError` is not modelled.
- The `modified_after` filter (lines 249-257): it is evaluated by the server, so the model takes the filtered item list as given and claims nothing about timestamps.
- `ctime()` formatting of timestamps: timestamps are opaque integers.
- Local filesystem work of `download_file` (`os.path.isdir`, `open`, `os.stat`, `os.path.join`, `basename`): the directory check is a flag and the written file is a parameter.
- `print` logging: the reason `Connect` fails is kept as `ConnectOutcome` in place of the printed message.
- Session.CheckConnectionValid: compares URLs with ASCII lower-casing only, because Python's Unicode `str.lower` is not modelled.
- Session.Connect: treats a `None` credential like `""`; both are falsy in the source.
- `get_doc_lib` (lines 173-187) on its own: it always raises (line 187); its intended result is `Summaries.LibrarySummary`.
- Items whose folder or file expansion is absent in the SDK response (a `None` URL would raise in the substring test): every item carries both records.
- Summaries.FileSummary: a floating-point property is an exact `real`, so a NaN property (truthy in Python) is not modelled.
- Session.CheckUserAccessForFile: a `ClientRequestException` of the permission query (line 169) is an absent permission set, and the user object's comparison with `""` is modelled on its login name.
- `vowelsharepoint/main.py`, the `examples/` scripts and `setup.py`: integration scripts and packaging with no pure logic.
