/**
 The records the SDK hands back (library root, folder, file, list field) and
 the flat summaries `SharePointSite._get_system_object_summary` shapes from
 them (office365sdk.py lines 351-393), plus the field-title lookup of
 `_get_lib_field_internal` (lines 331-349).
 */
module Summaries {
  import opened Wrappers
  import Scan

  /** Timestamps are opaque: `ctime()` formatting is not modelled. */
  type Timestamp = int

  /** A list-item property value as the SDK decodes it from JSON: `None`, a
      string, an integer, a float, a boolean, a list (multi-choice columns)
      or a dictionary (lookup and managed-metadata columns). */
  datatype FieldValue =
    | Null
    | Text(text: string)
    | Number(n: int)
    | Decimal(x: real)
    | Flag(b: bool)
    | Many(values: seq<FieldValue>)
    | Record(entries: map<string, FieldValue>)

  /** Python truthiness of a property value: `if tag_value:`. Empty strings,
      zero, `False`, `None`, empty lists and empty dictionaries are falsy. */
  predicate Truthy(v: FieldValue)
  {
    match v
    case Null => false
    case Text(t) => t != ""
    case Number(n) => n != 0
    case Decimal(x) => x != 0.0
    case Flag(b) => b
    case Many(vs) => |vs| > 0
    case Record(m) => |m| > 0
  }

  /** Root folder of a document library, with its storage metrics. */
  datatype LibraryRoot = LibraryRoot(serverRelativeUrl: string, timeLastModified: Timestamp, totalSize: nat)

  /** A folder, with its storage metrics. */
  datatype FolderInfo = FolderInfo(serverRelativeUrl: string, timeLastModified: Timestamp, totalFileStreamSize: nat)

  /** A file, with the properties of its list item (`listItemAllFields`). */
  datatype FileInfo = FileInfo(
    serverRelativeUrl: string,
    timeLastModified: Timestamp,
    length: nat,
    properties: map<string, FieldValue>)

  /** A column of a document library: display title and internal name. */
  datatype Field = Field(title: string, internalName: string)

  /** The summary dictionary: `site_url`, `server_relative_url`,
      `time_last_modified`, `size_bytes`, and `tag` only when present. */
  datatype Summary = Summary(
    siteUrl: string,
    serverRelativeUrl: string,
    timeLastModified: Timestamp,
    sizeBytes: nat,
    tag: Option<FieldValue>)

  /** `_get_system_object_summary(List, ...)`: a library's size is its total size. */
  function LibrarySummary(siteUrl: string, root: LibraryRoot): (s: Summary)
    ensures s.siteUrl == siteUrl && s.serverRelativeUrl == root.serverRelativeUrl
    ensures s.timeLastModified == root.timeLastModified && s.sizeBytes == root.totalSize
    ensures s.tag.None?
  {
    Summary(siteUrl, root.serverRelativeUrl, root.timeLastModified, root.totalSize, None)
  }

  /** `_get_system_object_summary(Folder, ...)`: a folder's size is the total
      stream size of the files under it. */
  function FolderSummary(siteUrl: string, folder: FolderInfo): (s: Summary)
    ensures s.siteUrl == siteUrl && s.serverRelativeUrl == folder.serverRelativeUrl
    ensures s.timeLastModified == folder.timeLastModified && s.sizeBytes == folder.totalFileStreamSize
    ensures s.tag.None?
  {
    Summary(siteUrl, folder.serverRelativeUrl, folder.timeLastModified, folder.totalFileStreamSize, None)
  }

  /** `properties.get(name)`: a missing property reads as `None`. */
  function PropertyOf(file: FileInfo, name: string): (v: FieldValue)
    ensures name !in file.properties ==> v == Null
    ensures name in file.properties ==> v == file.properties[name]
  {
    if name in file.properties then file.properties[name] else Null
  }

  /** The tag a file summary carries for a given internal column name. */
  function TagOf(file: FileInfo, tagColumnInternal: string): (tag: Option<FieldValue>)
  {
    if tagColumnInternal == "" then None
    else
      var v := PropertyOf(file, tagColumnInternal);
      Some(if Truthy(v) then v else Text(""))
  }

  /** `_get_system_object_summary(File, ...)`: the size is the file length, and
      the `tag` key is added only when a tag column was resolved; its value is
      the column's property when truthy, and `""` otherwise. */
  function FileSummary(siteUrl: string, file: FileInfo, tagColumnInternal: string): (s: Summary)
    ensures s.siteUrl == siteUrl && s.serverRelativeUrl == file.serverRelativeUrl
    ensures s.timeLastModified == file.timeLastModified && s.sizeBytes == file.length
    ensures s.tag.Some? <==> tagColumnInternal != ""
    ensures s.tag.Some? ==> Truthy(s.tag.value) || s.tag.value == Text("")
    ensures tagColumnInternal != "" && Truthy(PropertyOf(file, tagColumnInternal)) ==>
              s.tag == Some(file.properties[tagColumnInternal])
    ensures tagColumnInternal != "" && !Truthy(PropertyOf(file, tagColumnInternal)) ==>
              s.tag == Some(Text(""))
  {
    Summary(siteUrl, file.serverRelativeUrl, file.timeLastModified, file.length, TagOf(file, tagColumnInternal))
  }

  /** Two files that differ only in properties other than the tag column
      have the same summary. */
  lemma FileSummaryReadsOnlyTagColumn(siteUrl: string, a: FileInfo, b: FileInfo, tagColumnInternal: string)
    requires a.serverRelativeUrl == b.serverRelativeUrl
    requires a.timeLastModified == b.timeLastModified && a.length == b.length
    requires PropertyOf(a, tagColumnInternal) == PropertyOf(b, tagColumnInternal)
    ensures FileSummary(siteUrl, a, tagColumnInternal) == FileSummary(siteUrl, b, tagColumnInternal)
  {
  }

  /** `_get_lib_field_internal`: the internal name of the first field whose
      title equals `title` exactly, or `""` when no field has that title. */
  function LibFieldInternal(fields: seq<Field>, title: string): (internal: string)
    ensures (forall i :: 0 <= i < |fields| ==> fields[i].title != title) ==> internal == ""
    ensures forall i :: 0 <= i < |fields| && fields[i].title == title &&
                        (forall j :: 0 <= j < i ==> fields[j].title != title) ==>
                        internal == fields[i].internalName
  {
    match Scan.FirstIndex(fields, (f: Field) => f.title == title)
    case None => ""
    case Some(i) =>
      fields[i].internalName
  }

  /** Appending fields never changes the answer once a title has been found
      earlier in the list. */
  lemma LibFieldInternalFirstWins(fields: seq<Field>, more: seq<Field>, title: string, i: nat)
    requires i < |fields| && fields[i].title == title
    ensures LibFieldInternal(fields + more, title) == LibFieldInternal(fields, title)
  {
    var p := (f: Field) => f.title == title;
    var k := Scan.FirstIndex(fields, p).value;
    var all := fields + more;
    assert all[k] == fields[k];
    assert forall j :: 0 <= j < k ==> all[j] == fields[j];
    Scan.FirstIndexUnique(all, p, k);
  }
}
