/**
 The input-path resolver of `SharePointSite` (office365sdk.py lines 405-420).
 A user path such as `Documents/sharepoint-test-folder1` names a document
 library (the text before the first `/`) and a folder path inside it. The
 site's default library is titled `Documents` but lives under the URL segment
 `Shared Documents`, so any library whose name CONTAINS `Documents` has its
 folder path re-rooted there; every other path is used as typed.
 */
module Paths {
  import opened Wrappers
  import opened Text
  import Scan

  /** Title of the site's default document library. */
  const DocumentsLibName: string := "Documents"
  /** URL segment under which the default document library is stored. */
  const DocumentsSitePath: string := "Shared Documents"

  const Separator: char := '/'

  /** Python's `s.split(sep, 1)`: one part when `sep` does not occur, otherwise
      the text before its first occurrence and everything after it. */
  function SplitOnce(s: string, sep: char): (parts: seq<string>)
    ensures 1 <= |parts| <= 2
    ensures |parts| == 1 <==> sep !in s
    ensures |parts| == 1 ==> parts[0] == s
    ensures |parts| == 2 ==> sep !in parts[0] && parts[0] + [sep] + parts[1] == s
  {
    match Scan.FirstIndex(s, c => c == sep)
    case None =>
      assert forall j :: 0 <= j < |s| ==> s[j] != sep;
      [s]
    case Some(i) =>
      assert s[..i] + [sep] + s[i + 1..] == s;
      [s[..i], s[i + 1..]]
  }

  /** `_get_doclib_from_inputpath`: the library name. */
  function DocLib(inputPath: string): (lib: string)
    ensures Separator !in lib
    ensures lib <= inputPath
    ensures lib == inputPath <==> Separator !in inputPath
    ensures Separator in inputPath ==> |lib| < |inputPath| && inputPath[|lib|] == Separator
  {
    var parts := SplitOnce(inputPath, Separator);
    assert |parts| == 2 ==> (parts[0] + [Separator] + parts[1])[..|parts[0]|] == parts[0];
    assert |parts| == 2 ==> (parts[0] + [Separator] + parts[1])[|parts[0]|] == Separator;
    parts[0]
  }

  /** Everything after the first separator (empty when there is none). */
  function Remainder(inputPath: string): (rest: string)
    ensures Separator in inputPath ==> DocLib(inputPath) + [Separator] + rest == inputPath
    ensures Separator !in inputPath ==> rest == ""
  {
    var parts := SplitOnce(inputPath, Separator);
    if |parts| == 1 then "" else parts[1]
  }

  /** True when the library name would be re-rooted under `Shared Documents`:
      a substring test, so `MyDocumentsLib` qualifies as well as `Documents`. */
  predicate IsDocumentsLib(lib: string)
  {
    Contains(lib, DocumentsLibName)
  }

  /** `_get_folderpath_from_inputpath`: the folder path the listing scans for. */
  function FolderPath(inputPath: string): (folder: string)
    ensures folder == "" <==> Separator !in inputPath
    ensures Separator in inputPath && IsDocumentsLib(DocLib(inputPath)) ==>
              folder == DocumentsSitePath + [Separator] + Remainder(inputPath)
    ensures Separator in inputPath && !IsDocumentsLib(DocLib(inputPath)) ==>
              folder == inputPath && DocLib(inputPath) + [Separator] <= folder
  {
    var parts := SplitOnce(inputPath, Separator);
    if |parts| == 1 then ""
    else if Contains(parts[0], DocumentsLibName) then DocumentsSitePath + "/" + parts[1]
    else
      assert (parts[0] + [Separator] + parts[1])[..|parts[0]| + 1] == parts[0] + [Separator];
      inputPath
  }

  /** Resolving a path built from a library name and a remainder gives back
      the library name, and a folder path that keeps the remainder and is
      rooted at `Shared Documents/` or at `<library>/`. */
  lemma ResolveJoined(lib: string, rest: string)
    requires Separator !in lib
    ensures DocLib(lib + [Separator] + rest) == lib
    ensures Remainder(lib + [Separator] + rest) == rest
    ensures FolderPath(lib + [Separator] + rest) ==
              (if IsDocumentsLib(lib) then DocumentsSitePath else lib) + [Separator] + rest
  {
    var path := lib + [Separator] + rest;
    assert path[|lib|] == Separator;
    assert DocLib(path) == lib;
    assert DocLib(path) + [Separator] + Remainder(path) == path;
    assert Remainder(path) == path[|lib| + 1..] == rest;
  }

  /** The resolved folder path always ends with the text after the first separator. */
  lemma FolderPathKeepsRemainder(inputPath: string)
    requires Separator in inputPath
    ensures |Remainder(inputPath)| < |FolderPath(inputPath)|
    ensures FolderPath(inputPath)[|FolderPath(inputPath)| - |Remainder(inputPath)|..] == Remainder(inputPath)
  {
    var lib, rest := DocLib(inputPath), Remainder(inputPath);
    ResolveJoined(lib, rest);
  }

  /** The default library is re-rooted under `Shared Documents`:
      `Documents/sharepoint-test-folder1` resolves to library `Documents`
      and folder `Shared Documents/sharepoint-test-folder1`. */
  lemma ExampleDefaultLibrary(rest: string)
    ensures DocLib("Documents/" + rest) == "Documents"
    ensures FolderPath("Documents/" + rest) == "Shared Documents/" + rest
  {
    var lib := "Documents";
    assert lib + [Separator] + rest == "Documents/" + rest;
    assert DocumentsSitePath + [Separator] + rest == "Shared Documents/" + rest;
    ContainsPrefix(DocumentsLibName, lib);
    ResolveJoined(lib, rest);
  }

  /** A library whose name merely contains `Documents` is re-rooted too. */
  lemma ExampleContainsDocuments(rest: string)
    ensures DocLib("MyDocumentsLib/" + rest) == "MyDocumentsLib"
    ensures FolderPath("MyDocumentsLib/" + rest) == "Shared Documents/" + rest
  {
    var lib := "MyDocumentsLib";
    assert lib + [Separator] + rest == "MyDocumentsLib/" + rest;
    assert DocumentsSitePath + [Separator] + rest == "Shared Documents/" + rest;
    assert "My" + DocumentsLibName + "Lib" == lib;
    ContainsInMiddle("My", DocumentsLibName, "Lib");
    ResolveJoined(lib, rest);
  }

  /** Any other library is passed through verbatim. */
  lemma ExampleOtherLibrary(rest: string)
    ensures DocLib("my-test-doc-lib/" + rest) == "my-test-doc-lib"
    ensures FolderPath("my-test-doc-lib/" + rest) == "my-test-doc-lib/" + rest
  {
    var lib := "my-test-doc-lib";
    assert lib + [Separator] + rest == "my-test-doc-lib/" + rest;
    assert !IsDocumentsLib(lib) by {
      forall i | 0 <= i <= |lib| - |DocumentsLibName|
        ensures !OccursAt(lib, DocumentsLibName, i)
      {
        assert lib[i] != 'D';
      }
    }
    ResolveJoined(lib, rest);
  }

  /** A trailing separator still yields a non-empty folder path. */
  lemma ExampleTrailingSeparator()
    ensures DocLib("lib/") == "lib"
    ensures FolderPath("lib/") == "lib/"
  {
    var lib := "lib";
    assert lib + [Separator] + "" == "lib/";
    assert !IsDocumentsLib(lib) by {
      if IsDocumentsLib(lib) {
        ContainedIsShorter(lib, DocumentsLibName);
      }
    }
    ResolveJoined(lib, "");
  }

  /** A bare library name has an empty folder path. */
  lemma ExampleLibraryOnly()
    ensures DocLib("Documents") == "Documents" && FolderPath("Documents") == ""
  {
    assert Separator !in "Documents";
  }
}
