/**
 The `SharePointSite` session: connecting with certificate credentials
 (office365sdk.py lines 31-76), validating the connection (lines 78-96),
 the file-access check (lines 131-171) and the guards of `download_file`
 (lines 286-326). Remote answers are parameters; each operation also
 reports the remote calls it made, so that "no lookup before the input
 checks pass" can be stated.
 */
module Session {
  import opened Wrappers
  import opened Text
  import opened Summaries

  /** The SDK client context; `webUrl` is the URL its `web` reports. */
  datatype Connection = Connection(webUrl: string)

  /** A session: the site URL it was created for and its context, `None`
      until a connection succeeds. */
  datatype Site = Site(siteUrl: string, ctx: Option<Connection>)

  /** `SharePointSite(site_url)`: no context yet. */
  function NewSite(siteUrl: string): (site: Site)
    ensures site.siteUrl == siteUrl && site.ctx.None?
  {
    Site(siteUrl, None)
  }

  /** Ways in which `SharePointSite` methods raise instead of returning. */
  datatype Fault =
    | NotConnected    // a remote call reads `self.ctx.web` while `self.ctx` is still `None`
    | GetDocLibArity  // line 209 passes `self.ctx` to `get_doc_lib`, which takes only `list_title`
    | FolderIsNone    // line 280 subscripts the `None` that `get_folder` returned

  /** What `connect_with_client_certificate` did, in the order it checks. */
  datatype ConnectOutcome =
    | Connected
    | MissingTenantId
    | MissingClientId
    | MissingCertThumbprint
    | MissingCertPem
    | NoContext
  {
    /** The `bool` the source returns. */
    predicate Succeeded() { Connected? }
  }

  /** `connect_with_client_certificate`. Credentials are Python strings where
      `None` and `""` are both falsy; both are modelled as `""`. `obtained` is
      what the SDK's `with_client_certificate` produced. */
  function Connect(site: Site, tenantId: string, clientId: string, certThumbprint: string, certPem: string,
                   obtained: Option<Connection>): (r: (Site, ConnectOutcome))
    ensures r.1.Succeeded() <==>
              tenantId != "" && clientId != "" && certThumbprint != "" && certPem != "" && obtained.Some?
    ensures r.1.Succeeded() ==> r.0 == site.(ctx := obtained)
    ensures !r.1.Succeeded() ==> r.0 == site
    ensures tenantId == "" ==> r.1 == MissingTenantId
    ensures tenantId != "" && clientId == "" ==> r.1 == MissingClientId
    ensures tenantId != "" && clientId != "" && certThumbprint == "" ==> r.1 == MissingCertThumbprint
    ensures tenantId != "" && clientId != "" && certThumbprint != "" && certPem == "" ==> r.1 == MissingCertPem
  {
    if tenantId == "" then (site, MissingTenantId)
    else if clientId == "" then (site, MissingClientId)
    else if certThumbprint == "" then (site, MissingCertThumbprint)
    else if certPem == "" then (site, MissingCertPem)
    else if obtained.None? then (site, NoContext)
    else (site.(ctx := obtained), Connected)
  }

  /** `check_connection_valid`: there is a context, the URL its web reports
      is non-empty, and it equals `siteUrl` ignoring (ASCII) case. */
  function CheckConnectionValid(site: Site, siteUrl: string): (ok: bool)
    ensures ok ==> site.ctx.Some? && site.ctx.value.webUrl != ""
    ensures ok ==> |site.ctx.value.webUrl| == |siteUrl|
    ensures ok <==> site.ctx.Some? && site.ctx.value.webUrl != "" && EqualIgnoringCase(site.ctx.value.webUrl, siteUrl)
  {
    match site.ctx
    case None => false
    case Some(conn) =>
      if conn.webUrl == "" || ToLower(conn.webUrl) != ToLower(siteUrl) then false
      else true
  }

  /** A fresh session is never valid; one connected to a context whose web
      reports `siteUrl` (in any case) is valid for `siteUrl`. */
  lemma ConnectThenValidate(siteUrl: string, tenantId: string, clientId: string, certThumbprint: string,
                            certPem: string, conn: Connection)
    requires tenantId != "" && clientId != "" && certThumbprint != "" && certPem != ""
    requires conn.webUrl != "" && EqualIgnoringCase(conn.webUrl, siteUrl)
    ensures !CheckConnectionValid(NewSite(siteUrl), siteUrl)
    ensures var (site, outcome) := Connect(NewSite(siteUrl), tenantId, clientId, certThumbprint, certPem, Some(conn));
            outcome.Succeeded() && CheckConnectionValid(site, siteUrl)
  {
  }

  /** Validity depends on the URL only up to case. */
  lemma ValidityIgnoresCase(site: Site, a: string, b: string)
    requires EqualIgnoringCase(a, b)
    ensures CheckConnectionValid(site, a) == CheckConnectionValid(site, b)
  {
  }

  /** The permission kinds of the SDK's `PermissionKind` that matter here. */
  datatype PermissionKind =
    | EmptyMask | ViewListItems | AddListItems | EditListItems | DeleteListItems
    | ApproveItems | OpenItems | ViewVersions | FullMask

  /** The remote calls the session makes. */
  datatype RemoteCall =
    | UserLookup(email: string)
    | FileLookup(path: string)
    | PermissionQuery(login: string, path: string)
    | FileDownload(path: string)

  /** The permission kind line 149-151 checks for, whatever was asked:
      every `access` value is coerced to `OPEN_ITEMS`. */
  function RequestedKind(access: string): (kind: PermissionKind)
  {
    OpenItems
  }

  datatype AccessCheck = AccessCheck(granted: bool, calls: seq<RemoteCall>)

  /** `check_user_access_for_file`. `user` is the login `get_user_by_email`
      found (`None` when the user is not on the site), `file` what
      `get_file_by_path` found, and `permissions` the user's effective
      permissions on the file (`None` when that query raised). Once the
      inputs are non-empty, the user lookup reads `self.ctx.web` (line 121),
      which raises on an unconnected session. */
  function CheckUserAccessForFile(site: Site, userEmail: string, filePath: string, access: string,
                                  user: Option<string>, file: Option<FileInfo>,
                                  permissions: Option<set<PermissionKind>>): (r: Result<AccessCheck, Fault>)
    ensures r.Err? <==> userEmail != "" && filePath != "" && site.ctx.None?
    ensures r.Err? ==> r.error == NotConnected
    ensures r.Ok? && r.value.granted <==>
              userEmail != "" && filePath != "" && site.ctx.Some? && user.Some? && user.value != "" &&
              file.Some? && permissions.Some? && OpenItems in permissions.value
    ensures userEmail == "" || filePath == "" ==> r == Ok(AccessCheck(false, []))
    ensures r.Ok? && userEmail != "" && filePath != "" ==>
              1 <= |r.value.calls| <= 3 && r.value.calls[0] == UserLookup(userEmail)
    ensures r.Ok? ==>
              (FileLookup(filePath) in r.value.calls <==>
                 userEmail != "" && filePath != "" && user.Some? && user.value != "")
    ensures r.Ok? ==>
              ((exists login :: PermissionQuery(login, filePath) in r.value.calls) <==>
                 userEmail != "" && filePath != "" && user.Some? && user.value != "" && file.Some?)
  {
    if userEmail == "" || filePath == "" then Ok(AccessCheck(false, []))
    else if site.ctx.None? then Err(NotConnected)
    else
      var kind := RequestedKind(access);
      if user.None? || user.value == "" then Ok(AccessCheck(false, [UserLookup(userEmail)]))
      else if file.None? then Ok(AccessCheck(false, [UserLookup(userEmail), FileLookup(filePath)]))
      else
        var calls := [UserLookup(userEmail), FileLookup(filePath), PermissionQuery(user.value, filePath)];
        match permissions
        case None => Ok(AccessCheck(false, calls))
        case Some(kinds) => Ok(AccessCheck(kind in kinds, calls))
  }

  /** The requested access kind never changes the answer: asking for any kind
      behaves exactly like asking for `OPEN_ITEMS`. */
  lemma AccessKindIgnored(site: Site, userEmail: string, filePath: string, a: string, b: string,
                          user: Option<string>, file: Option<FileInfo>, permissions: Option<set<PermissionKind>>)
    ensures CheckUserAccessForFile(site, userEmail, filePath, a, user, file, permissions) ==
            CheckUserAccessForFile(site, userEmail, filePath, b, user, file, permissions)
  {
  }

  /** The dictionary `download_file` returns on success. */
  datatype LocalFile = LocalFile(fileName: string, fileSizeBytes: nat)

  /** `(summary, ok)` with the remote calls made; `None` is the empty dict. */
  datatype DownloadResult = DownloadResult(summary: Option<LocalFile>, ok: bool, calls: seq<RemoteCall>)

  /** `download_file`. `dirExists` is `os.path.isdir(download_path)`, `source`
      what `get_file_by_path` found, and `written` the local file the
      download produced (its name and `os.stat` size). Past the directory
      check, the file lookup reads `self.ctx.web` (line 105), which raises on
      an unconnected session. */
  function DownloadFile(site: Site, inputPath: string, inputSizeBytes: string, downloadPath: string,
                        dirExists: bool, source: Option<FileInfo>, written: LocalFile): (r: Result<DownloadResult, Fault>)
    ensures !dirExists ==> r == Ok(DownloadResult(None, false, []))
    ensures r.Err? <==> dirExists && site.ctx.None?
    ensures r.Err? ==> r.error == NotConnected
    ensures r.Ok? ==> (r.value.ok <==> dirExists && source.Some?)
    ensures r.Ok? && r.value.ok ==> r.value.summary == Some(written)
    ensures r.Ok? && !r.value.ok ==> r.value.summary.None?
    ensures r.Ok? && dirExists ==> 1 <= |r.value.calls| && r.value.calls[0] == FileLookup(inputPath)
    ensures r.Ok? ==> (FileDownload(inputPath) in r.value.calls <==> r.value.ok)
  {
    if !dirExists then Ok(DownloadResult(None, false, []))
    else if site.ctx.None? then Err(NotConnected)
    else if source.None? then Ok(DownloadResult(None, false, [FileLookup(inputPath)]))
    else Ok(DownloadResult(Some(written), true, [FileLookup(inputPath), FileDownload(inputPath)]))
  }

  /** The size hint is accepted and ignored. */
  lemma DownloadIgnoresSizeHint(site: Site, inputPath: string, a: string, b: string, downloadPath: string,
                                dirExists: bool, source: Option<FileInfo>, written: LocalFile)
    ensures DownloadFile(site, inputPath, a, downloadPath, dirExists, source, written) ==
            DownloadFile(site, inputPath, b, downloadPath, dirExists, source, written)
  {
  }
}
