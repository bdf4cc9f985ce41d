/**
  The HTTP layer's own logic: the progress store, the status codes the
  endpoints answer with, the lookup of a backup for download and the media
  type of a packaged editor. Each endpoint's decision is a function of
  what the components it calls return or raise; requests, background
  tasks and the response objects themselves are not modelled.
 */
module Api {
  import opened Wrappers
  import opened FileSystem
  import opened Settings
  import opened AppDetector
  import opened Search
  import BackupManager
  import VSCodePackager

  /** An endpoint's answer: a JSON body, or an `HTTPException` with its status code. */
  datatype Response<T> = Body(value: T) | HttpError(code: nat, detail: string)

  /** How an endpoint's `try` block ends: a value, an `HTTPException`, or any other exception. */
  datatype Exit<T> = Done(value: T) | HttpRaised(code: nat, detail: string) | Crashed(message: string)

  /**
    `except HTTPException: raise` followed by `except Exception`: an
    `HTTPException` passes through, any other exception becomes a 500.
   */
  function Guarded<T>(e: Exit<T>, detail: string): (r: Response<T>)
    ensures e.Done? <==> r.Body?
    ensures e.HttpRaised? ==> r == HttpError(e.code, e.detail)
    ensures e.Crashed? ==> r == HttpError(500, detail)
  {
    match e
    case Done(v) => Body(v)
    case HttpRaised(code, d) => HttpError(code, d)
    case Crashed(_) => HttpError(500, detail)
  }

  /** Only `except Exception`: an `HTTPException` raised inside the `try` is caught as well and becomes a 500. */
  function CatchAll<T>(e: Exit<T>, detail: string): (r: Response<T>)
    ensures e.Done? <==> r.Body?
    ensures !e.Done? ==> r == HttpError(500, detail)
  {
    match e
    case Done(v) => Body(v)
    case _ => HttpError(500, detail)
  }

  // ---------------------------------------------------------------------
  // Progress store (api.py:53-60, 108-112)
  // ---------------------------------------------------------------------

  /** A progress entry, `{"progress": ..., "status": ...}`. */
  datatype Progress = Progress(progress: real, status: string)

  const Starting: string := "starting"
  /** `update_progress`'s default status. */
  const InProgress: string := "in-progress"

  /** The entries after one `update_progress`: that application's entry is replaced, every other one kept. */
  function Updated(entries: map<string, Progress>, app: string, progress: real, status: string): (r: map<string, Progress>)
    ensures r.Keys == entries.Keys + {app}
    ensures r[app] == Progress(progress, status)
    ensures forall a | a in entries && a != app :: r[a] == entries[a]
  {
    entries[app := Progress(progress, status)]
  }

  /** The entries after the background backup reports the values `ps` through its callback. */
  function Reports(entries: map<string, Progress>, app: string, ps: seq<real>): map<string, Progress> {
    if ps == [] then entries
    else Updated(Reports(entries, app, ps[..|ps| - 1]), app, ps[|ps| - 1], InProgress)
  }

  /**
    From the start of a backup on, the application's entry says "starting"
    until the first report and "in-progress" with the latest value after;
    no completion status is ever stored, and no other entry changes.
   */
  lemma {:induction false} OnlyInProgress(entries: map<string, Progress>, app: string, ps: seq<real>)
    ensures var r := Reports(Updated(entries, app, 0.0, Starting), app, ps);
      && r.Keys == entries.Keys + {app}
      && r[app] == (if ps == [] then Progress(0.0, Starting) else Progress(ps[|ps| - 1], InProgress))
      && forall a | a in entries && a != app :: r[a] == entries[a]
  {
    if ps != [] {
      OnlyInProgress(entries, app, ps[..|ps| - 1]);
    }
  }

  /** `progress_store`: the last progress each application reported. */
  class ProgressStore {
    var entries: map<string, Progress>

    constructor ()
      ensures entries == map[]
    {
      entries := map[];
    }

    /** `update_progress` (api.py:55-60). */
    method UpdateProgress(app: string, progress: real, status: string)
      modifies this
      ensures entries == Updated(old(entries), app, progress, status)
    {
      entries := entries[app := Progress(progress, status)];
    }

    /** The callback a backup started by `backup_app` reports through (api.py:96): the default status. */
    method ReportProgress(app: string, progress: real)
      modifies this
      ensures entries == Updated(old(entries), app, progress, InProgress)
    {
      UpdateProgress(app, progress, InProgress);
    }

    /** `get_backup_progress` (api.py:108-112): the stored entry, or 404 for an application never reported. */
    function GetBackupProgress(app: string): (r: Response<Progress>)
      reads this
      ensures r.Body? <==> app in entries
      ensures r.Body? ==> r.value == entries[app]
      ensures r.HttpError? ==> r.code == 404
    {
      if app !in entries then HttpError(404, "No backup in progress") else Body(entries[app])
    }

    /**
      `backup_app` (api.py:75-105): `detected` is what
      `detect_applications` returns or raises. When it answers "backup
      started", `started` holds the settings the background backup is given.
     */
    method BackupApp(detected: Result<seq<App>>, appName: string) returns (r: Response<string>, started: Option<seq<Setting>>)
      modifies this
      ensures r == BackupAppReply(detected, appName)
      ensures r.Body? <==> started.Some?
      ensures r.Body? ==> started.value == First(detected.value, Named(appName)).value.settings
      ensures entries == if r.Body? then Updated(old(entries), appName, 0.0, Starting) else old(entries)
    {
      started := None;
      if detected.Err? {
        return HttpError(500, "Failed to create backup"), None;
      }
      var app := First(detected.value, Named(appName));
      if app.None? {
        return HttpError(404, "Application " + appName + " not found"), None;
      }
      if app.value.settings == [] {
        return HttpError(404, "No settings found for " + appName), None;
      }
      UpdateProgress(appName, 0.0, Starting);
      r, started := Body("backup started"), Some(app.value.settings);
    }
  }

  /** The test of `next((a for a in apps if a["name"] == name), None)` (api.py:80). */
  function Named(name: string): App -> bool {
    (a: App) => a.name == name
  }

  /** What `backup_app` answers (api.py:79-105). */
  function BackupAppReply(detected: Result<seq<App>>, appName: string): (r: Response<string>)
    ensures detected.Err? ==> r == HttpError(500, "Failed to create backup")
    ensures detected.Ok? ==>
      (r.HttpError? <==> First(detected.value, Named(appName)).None? || First(detected.value, Named(appName)).value.settings == [])
    ensures detected.Ok? && r.HttpError? ==> r.code == 404
    ensures r.Body? ==> r.value == "backup started"
  {
    Guarded(BackupAppExit(detected, appName), "Failed to create backup")
  }

  function BackupAppExit(detected: Result<seq<App>>, appName: string): Exit<string> {
    if detected.Err? then Crashed(detected.error)
    else
      var app := First(detected.value, Named(appName));
      if app.None? then HttpRaised(404, "Application " + appName + " not found")
      else if app.value.settings == [] then HttpRaised(404, "No settings found for " + appName)
      else Done("backup started")
  }

  // ---------------------------------------------------------------------
  // Restore and delete (api.py:123-150)
  // ---------------------------------------------------------------------

  /**
    What `restore_backup` answers; `outcome` is what
    `BackupManager.restore_backup` returns or raises (api.py:123-138).
   */
  function RestoreReply(outcome: Result<bool>): (r: Response<string>)
    ensures r == Body("restore completed") <==> outcome == Ok(true)
    ensures (r.HttpError? && r.code == 404) <==> outcome == Ok(false)
    ensures (r.HttpError? && r.code == 500) <==> outcome.Err?
  {
    var e: Exit<string> :=
      if outcome.Err? then Crashed(outcome.error)
      else if !outcome.value then HttpRaised(404, "Backup not found or restore failed")
      else Done("restore completed");
    Guarded(e, "Failed to restore backup")
  }

  function DeleteExit(outcome: Result<bool>): Exit<string> {
    if outcome.Err? then Crashed(outcome.error)
    else if !outcome.value then HttpRaised(404, "Backup not found")
    else Done("backup deleted")
  }

  /**
    `delete_backup` as written (api.py:140-150): its `try` has no
    `except HTTPException: raise`, so the 404 it raises for a missing
    backup is caught by `except Exception` and answered as a 500.
   */
  function DeleteReplyAsWritten(outcome: Result<bool>): (r: Response<string>)
    ensures r == Body("backup deleted") <==> outcome == Ok(true)
    ensures r.HttpError? ==> r.code == 500
  {
    CatchAll(DeleteExit(outcome), "Failed to delete backup")
  }

  /** `delete_backup` with the 404 passed through, as the other endpoints do. */
  function DeleteReply(outcome: Result<bool>): (r: Response<string>)
    ensures r == Body("backup deleted") <==> outcome == Ok(true)
    ensures (r.HttpError? && r.code == 404) <==> outcome == Ok(false)
    ensures (r.HttpError? && r.code == 500) <==> outcome.Err?
  {
    Guarded(DeleteExit(outcome), "Failed to delete backup")
  }

  /** A missing backup: as written the client gets 500, where the raised 404 was meant. */
  lemma DeleteMissingFinding()
    ensures DeleteReplyAsWritten(Ok(false)) == HttpError(500, "Failed to delete backup")
    ensures DeleteReply(Ok(false)) == HttpError(404, "Backup not found")
  {
  }

  /** On every other outcome the two agree. */
  lemma DeleteRepliesAgree(outcome: Result<bool>)
    requires outcome != Ok(false)
    ensures DeleteReplyAsWritten(outcome) == DeleteReply(outcome)
  {
  }

  // ---------------------------------------------------------------------
  // Download lookup (api.py:152-166)
  // ---------------------------------------------------------------------

  type Listing = BackupManager.Listing

  /** `order` lists the keys of the grouped listing once each: the order `backups.values()` yields them in. */
  predicate KeyOrder(groups: map<string, seq<Listing>>, order: seq<string>) {
    && (forall a | a in order :: a in groups)
    && (forall a | a in groups :: a in order)
    && (forall i, j | 0 <= i < j < |order| :: order[i] != order[j])
  }

  /** `all_backups`: the groups' listings one after another, in `order`. */
  function Flattened(groups: map<string, seq<Listing>>, order: seq<string>): seq<Listing>
    requires forall a | a in order :: a in groups
  {
    if order == [] then []
    else Flattened(groups, order[..|order| - 1]) + groups[order[|order| - 1]]
  }

  /** A listing is in the flattened list exactly when it is in one of the listed groups. */
  lemma {:induction false} FlattenedMembers(groups: map<string, seq<Listing>>, order: seq<string>, l: Listing)
    requires forall a | a in order :: a in groups
    ensures l in Flattened(groups, order) <==> exists i | 0 <= i < |order| :: l in groups[order[i]]
  {
    if order != [] {
      var init := order[..|order| - 1];
      FlattenedMembers(groups, init, l);
      if l in Flattened(groups, init) {
        var i :| 0 <= i < |init| && l in groups[init[i]];
        assert order[i] == init[i];
      }
      if exists i | 0 <= i < |order| :: l in groups[order[i]] {
        var i :| 0 <= i < |order| && l in groups[order[i]];
        if i < |init| {
          assert init[i] == order[i];
        }
      }
    }
  }

  /** The extend loop (api.py:159-161). */
  method FlattenBackups(groups: map<string, seq<Listing>>, order: seq<string>) returns (all: seq<Listing>)
    requires forall a | a in order :: a in groups
    ensures all == Flattened(groups, order)
  {
    all := [];
    for i := 0 to |order|
      invariant all == Flattened(groups, order[..i])
    {
      assert order[..i + 1][..i] == order[..i];
      all := all + groups[order[i]];
    }
    assert order[..|order|] == order;
  }

  function HasId(id: int): Listing -> bool {
    (l: Listing) => l.id == id
  }

  /**
    The backup `download_backup` serves (api.py:157-166): the first listing
    with the id in the flattened list, or 404.
   */
  method FindDownload(groups: map<string, seq<Listing>>, order: seq<string>, id: int) returns (r: Response<Listing>)
    requires KeyOrder(groups, order)
    ensures r.Body? <==> exists a | a in groups :: exists l | l in groups[a] :: l.id == id
    ensures r.Body? ==> r.value.id == id && exists a | a in groups :: r.value in groups[a]
    ensures r.Body? ==> Some(r.value) == First(Flattened(groups, order), HasId(id))
    ensures r.HttpError? ==> r == HttpError(404, "Backup not found")
  {
    var all := FlattenBackups(groups, order);
    var found := First(all, HasId(id));
    if found.None? {
      forall a, l | a in groups && l in groups[a]
        ensures l.id != id
      {
        var i :| 0 <= i < |order| && order[i] == a;
        FlattenedMembers(groups, order, l);
        var k :| 0 <= k < |all| && all[k] == l;
      }
      return HttpError(404, "Backup not found");
    }
    FlattenedMembers(groups, order, found.value);
    r := Body(found.value);
  }

  // ---------------------------------------------------------------------
  // Media type of a packaged editor (api.py:384-400)
  // ---------------------------------------------------------------------

  const DiskImage: string := "application/x-apple-diskimage"
  const ZipMedia: string := "application/zip"
  const GzipMedia: string := "application/gzip"
  const Octets: string := "application/octet-stream"

  /** The media type sent for a package's file type (api.py:389-400). */
  function MediaType(fileType: string): (m: string)
    ensures m == DiskImage <==> fileType == "dmg"
    ensures m == ZipMedia <==> fileType == "zip"
    ensures m == GzipMedia <==> fileType == "tar.gz"
    ensures m == Octets <==> fileType != "dmg" && fileType != "zip" && fileType != "tar.gz"
  {
    if fileType == "dmg" then DiskImage
    else if fileType == "zip" then ZipMedia
    else if fileType == "tar.gz" then GzipMedia
    else Octets
  }

  /** The attachment's file name (api.py:389-400): in every branch the type is its extension. */
  function AttachmentName(fileType: string): (n: string)
    ensures n == "VSCode_with_Settings." + fileType
  {
    if fileType == "dmg" then "VSCode_with_Settings.dmg"
    else if fileType == "zip" then "VSCode_with_Settings.zip"
    else if fileType == "tar.gz" then "VSCode_with_Settings.tar.gz"
    else "VSCode_with_Settings." + fileType
  }

  /**
    Whatever the packager produces is sent with a specific media type,
    never as raw octets, under the package's own file name.
   */
  lemma PackagedMedia(p: VSCodePackager.Packager, run: VSCodePackager.ToolRun)
    ensures var path := VSCodePackager.PackageVSCode(p, run).path;
      var t := VSCodePackager.FileType(VSCodePackager.Joined(path, VSCodePackager.Separator(p.system)));
      && MediaType(t) != Octets
      && AttachmentName(t) == Basename(path)
  {
    VSCodePackager.PackagedFileType(p, run);
  }
}
