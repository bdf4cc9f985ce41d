# SystemSync backend core, modelled in Dafny

SystemSync is a Python backend. It finds the desktop applications on a
machine and backs up their settings files into zip archives. It keeps those
archives in a local storage directory indexed by an SQLite database, and it
restores them later. It can also package Visual Studio Code together with a
user's settings, extensions and a setup script into a single download. This
project models that backend. It covers the backup manager, the local
storage, the database, the two application detectors, the YAML
configuration store, the Visual Studio Code packager and the HTTP endpoints
that drive them.

The model's pieces:

- **The filesystem** (`FileSystem`) is a map from paths to entries. A path
  is a sequence of components. An entry is a directory or a file holding
  bytes. `Disk` is the one mutable filesystem that the stateful components
  share. `os.makedirs`, `shutil.copy2`, `shutil.copytree`, `shutil.rmtree`
  and `os.remove` are functions on that map.
- **The database** (`Database.Database`) is a class. Its fields are the two
  tables as sequences of rows, the next row ids and a logical clock that
  stands in for `CURRENT_TIMESTAMP`. Its invariant covers three facts:
  - ids are unique and increasing;
  - timestamps rise in row order;
  - the `UNIQUE` columns are respected.
- **Local storage, the backup manager, the application handler and the
  configuration manager** are classes over that state. Each method states
  its whole new state.
- **The application detector and the packager's pure steps** are functions.
- **The HTTP layer** (`Api`) maps each handler's outcome to a reply or to an
  HTTP error with its status code. It also keeps the progress store, a
  class holding the in-memory progress dictionary.

Some things the source does are not modelled directly:

- **Outside effects become parameters.** Clocks, the OS name, the CPU kind,
  environment variables, `mkdtemp`, download and tool results, unreadable
  files and storage read faults are all passed in.
- **Listing order is a parameter or left open.** The order of `os.walk` and
  `rglob` is either a parameter or left unspecified (`Enumerate`).
- **Encoders are codec parameters.** The zip, JSON and YAML encoders are
  parameters with a stated round-trip property.

Where the specification of the system and its code disagree, the model
follows the code:

- `LocalStorage.list_backups` ignores its application-name argument.
- `get_backups` is an inner join, so backups whose application row is gone
  are invisible to every listing, to the usage figures and to deletion.
- `list_saved_configs` strips every occurrence of ".yaml" from a name, not
  only the suffix.

Where the code is evidently wrong, the model records the code as written
and uses the corrected behaviour (see Findings). For example,
`create_backup`'s file count misses file settings. `OvershootAsWritten`
exhibits that count, and `CreateBackup` uses the corrected count
`TotalFiles`.

The copy phase of `create_backup` has no `try` around one setting's walk.
So a file that cannot be read ends the walk of its directory setting
(`StageWalk`), and the exception is caught once per setting, so the later
settings are still copied (`StageAll`, `PartsWithin`).

## Model

| member | source | states |
|---|---|---|
| Search.First | backend/src/api.py:80 | `next(x for x in xs if p(x))` with a default: it gives `None` exactly when nothing matches; otherwise it gives a member that matches |
| Search.FirstIsEarliest | backend/src/system_sync/vscode_packager.py:179-187 | the value `First` finds is at the earliest matching index; no element before it matches |
| Search.FirstMatch | backend/src/system_sync/vscode_packager.py:179-187 | the early-exit search loop returns exactly the first match |
| FileSystem.TreeSizeOf | backend/src/system_sync/backup_manager.py:43-46 | the size a setting contributes: for a file, its own size; for a directory, the sum of the sizes of all regular files at any depth below it |
| FileSystem.DirSize | backend/src/system_sync/backup_manager.py:46 | the `rglob` sum loop computes the sum of the sizes of the regular files below the directory, whatever order it visits them in |
| FileSystem.CopyFileIntoDir | backend/src/app_handler.py:90 | `shutil.copy2` onto an existing directory writes the file inside it, under the source's name, and the directory stays |
| BackupManager.ValidSettings | backend/src/system_sync/backup_manager.py:28-31 | the kept settings are exactly those whose path exists, and there are no more of them than were given |
| BackupManager.ValidSettingsAppend | backend/src/system_sync/backup_manager.py:28-31 | the filter keeps the original order: filtering a concatenation concatenates the filtered parts |
| BackupManager.RunningTotalGrows | backend/src/system_sync/backup_manager.py:40-47 | each setting's recorded `size` is a running total, so the recorded sizes never decrease along the list |
| BackupManager.MeasureSettings | backend/src/system_sync/backup_manager.py:40-47 | setting k is recorded with the total through k; the result is the overall total, which is also the last setting's size |
| BackupManager.Dst | backend/src/system_sync/backup_manager.py:81-82 | a file below a setting goes under the setting's `<type>/<basename>` folder |
| BackupManager.EntriesFromKey | backend/src/system_sync/backup_manager.py:78-84 | every archive entry of a directory setting comes from a regular file at or below the setting's path |
| BackupManager.EntriesFromAt | backend/src/system_sync/backup_manager.py:78-84 | every visited regular file below a directory setting has its entry at its relative place, with its bytes |
| BackupManager.ReportedBounds | backend/src/system_sync/backup_manager.py:76-87 | as long as no more files are copied than were counted, the copy-phase callback values strictly rise and stay in (0, 50] |
| BackupManager.StageDirFile | backend/src/system_sync/backup_manager.py:80-87 | copying one walked file stops the walk exactly when the file is unreadable or the count is zero; an unreadable file still gets its destination directories; otherwise the file is at its destination, the count goes up by one and its callback value is appended; nothing outside the setting's folder changes |
| BackupManager.StageFile | backend/src/system_sync/backup_manager.py:70-75 | copying a file setting: an unreadable file adds nothing and leaves the count; otherwise its part of the folder is exactly its entry and the count goes up by one; nothing outside its folder changes |
| BackupManager.StageSetting | backend/src/system_sync/backup_manager.py:63-90 | one setting of the copy loop writes only inside its own folder; inside a clear folder it adds only that setting's entries, and with readable files and room in the count exactly those entries, counting each file |
| BackupManager.StageDir | backend/src/system_sync/backup_manager.py:78-87 | the walk over a directory setting writes only inside its folder and copies at most its files; in a clear folder its part of the result is a subset of the setting's entries, and exactly its entries when every file is readable |
| BackupManager.StageWalk | backend/src/system_sync/backup_manager.py:78-90 | walking a given order either visits every file or stops at the first one that raises; what is in the setting's folder is exactly the entries of the files copied before it; the count and the callback values match what was copied |
| BackupManager.WalkStopped | backend/src/system_sync/backup_manager.py:78-90 | when the walk stops at an unreadable file, the setting's folder still holds exactly the entries of the files copied before it, a subset of all its entries |
| BackupManager.StageNext | backend/src/system_sync/backup_manager.py:63-90 | one turn of the copy loop keeps the loop's facts: files only in the folders seen so far, the count within the files seen so far, each earlier folder unchanged, and with distinct folders the new folder holding only (with readable files exactly) its setting's entries |
| BackupManager.PartsStep | backend/src/system_sync/backup_manager.py:63-90 | after one more setting, every earlier setting's folder is as it was, so each folder still holds only that setting's entries |
| BackupManager.StageAll | backend/src/system_sync/backup_manager.py:58-90 | the copy phase puts files only in the settings' folders and copies at most the counted files; with a proper tree and distinct folders each setting's folder holds a subset of that setting's entries (a failing setting loses only its own files); with readable files too it copies exactly the layout of all settings |
| BackupManager.BackupProgressRises | backend/src/system_sync/backup_manager.py:107-131 | with no more files copied than counted (as the corrected count ensures), the backup's callback values strictly rise and stay in (0, 100], and a stored backup ends at 100 |
| BackupManager.TempDownload | backend/src/system_sync/backup_manager.py:160-168 | creating the temporary file and its directories does not change whether the stored zip is found, and a found zip is then copied byte for byte into the temporary file |
| BackupManager.BackupManager.constructor | backend/src/system_sync/backup_manager.py:16-19 | the backup directory and its missing ancestors are created; nothing else changes |
| BackupManager.BackupManager.CreateBackup | backend/src/system_sync/backup_manager.py:21-144 | with no existing setting or no copied file the result is `False`, no row is added and only the temporary zip path is gone; otherwise the recorded sizes are running totals, the callback values are those of `BackupProgress`, the archive holds files only in the settings' folders, each setting's folder a subset of its entries (exactly its entries, and all settings' layout, with readable files), and the result, disk and tables are those of `Upload` with the uncompressed total announced as the size, so a zip more than 1024 bytes smaller than its contents fails, and a directory standing at the storage path stays and fails the backup with no row added |
| BackupManager.BackupManager.StoreZip | backend/src/system_sync/backup_manager.py:100-144 | the temporary zip file is gone whatever happens; the result, the disk, the applications and the backups are exactly those of `Upload`: a nonzero announced size more than 1024 bytes off the zip's length fails with nothing stored; otherwise the application row is upserted; a directory standing at the storage path stays, nothing is stored and no row is appended; otherwise, unless a read fault, a short read or a taken storage path fails it, the stored copy holds the zip bytes and exactly one row is appended |
| BackupManager.UploadOutcome | backend/src/system_sync/backup_manager.py:100-144 | the upload's outcome: the temporary zip is gone; a stored backup means the size matched within the tolerance, the storage path was free, and exactly one row was appended with the backup's id, name, path, size and metadata, with the zip bytes at the path; a failed upload appends no row; a directory standing at the storage path is never replaced and makes the upload fail |
| BackupManager.BackupManager.RestoreBackup | backend/src/system_sync/backup_manager.py:146-252 | an unknown id gives `False` and writes nothing; a missing or unreadable stored zip gives `False` with the callback values reached so far; otherwise the selected settings are restored from the archive, the callback values are 25, 50 and then one value per restored setting, the row is marked restored and the temporary file removed |
| BackupManager.BackupManager.RestoreRow | backend/src/system_sync/backup_manager.py:159-247 | the same outcome cases as `RestoreBackup`, starting from the found row |
| BackupManager.BackupManager.ExtractAndRestore | backend/src/system_sync/backup_manager.py:178-247 | an unreadable archive changes nothing; otherwise the result is the restored tree without the temporary file, and the row carries the restore time |
| BackupManager.BackupManager.RestoreSettings | backend/src/system_sync/backup_manager.py:203-234 | the restore loop's filesystem and callback values are those of `Restored` and `RestoreShares` |
| BackupManager.BackupManager.RestoreSetting | backend/src/system_sync/backup_manager.py:212-231 | one setting: a file at `<type>` is copied to the setting's path; a directory is merged onto it unless a file stands there; otherwise nothing happens |
| BackupManager.BackupManager.ListBackups | backend/src/system_sync/backup_manager.py:254-279 | the listed backups grouped by application in listing order; an application has a group exactly when it has a backup; a truthy name keeps only its own group, which may be empty |
| BackupManager.BackupManager.DeleteBackup | backend/src/system_sync/backup_manager.py:281-287 | the three cases of local storage's delete: an unlisted id or a directory at the storage path changes nothing and gives `False`; otherwise the stored file (if there) and the row go, the applications are unchanged, and the result is `True` |
| BackupManager.Unpacked | backend/src/system_sync/backup_manager.py:182-183 | extraction makes every entry a file with its bytes; every other path it creates is a directory above some entry |
| BackupManager.RestoreSharesRise | backend/src/system_sync/backup_manager.py:233-234 | the restore-phase callback values strictly rise and lie in (50, 100] |
| BackupManager.EmptySelectionIsAll | backend/src/system_sync/backup_manager.py:208-210 | an empty `selected_files` list is falsy: it restores and reports exactly what no selection does |
| BackupManager.DisjointSelectionIsNothing | backend/src/system_sync/backup_manager.py:208-210 | a non-empty selection that names no setting restores nothing and reports nothing |
| BackupManager.RestoreNestsUnderBasename | backend/src/system_sync/backup_manager.py:214-226 | backing up a directory and then restoring it puts each file one level deeper, under `path/<basename>/<rel>`, not back at `path/<rel>` |
| BackupManager.RestoreFromFolder | backend/src/system_sync/backup_manager.py:224-226 | each entry below the archive folder `<type>` lands at its relative place below the setting's path |
| BackupManager.FileSettingUnpacked | backend/src/system_sync/backup_manager.py:214-226 | the unpacked archive of a file setting holds a directory at `<type>` and the file's bytes at `<type>/<basename>` |
| BackupManager.RestoreFileSetting | backend/src/system_sync/backup_manager.py:214-226 | a file setting's archive has a directory at `<type>`, so the restore merges `<basename>` below the setting's path instead of overwriting the file |
| BackupManager.EntryKeys | backend/src/system_sync/backup_manager.py:67 | every entry a setting contributes lies in its `<type>` folder, two levels down or more |
| BackupManager.EntryAt | backend/src/system_sync/backup_manager.py:78-84 | each file below a directory setting is in the archive at `Dst`, with its bytes |
| BackupManager.GroupOf | backend/src/system_sync/backup_manager.py:260-273 | an application's group holds exactly the listings of its backups |
| BackupManager.GroupedIsFilter | backend/src/system_sync/backup_manager.py:260-275 | the grouping loop's dictionary is the per-application filter of the listing, in order |
| BackupManager.Finally | backend/src/system_sync/backup_manager.py:140-144 | a `finally` that reads an unbound name replaces the pending outcome with an exception |
| BackupManager.NoSettingsAsWritten | backend/src/system_sync/backup_manager.py:33-35 | the early return happens exactly when no setting path exists |
| BackupManager.NoSettingsOutcome | backend/src/system_sync/backup_manager.py:140-144 | as written, that early return ends in an exception out of the call; with the path bound it would return `False` |
| BackupManager.CountFileSettings | backend/src/system_sync/backup_manager.py:58 | the count as written misses exactly one file per file setting |
| BackupManager.OvershootAsWritten | backend/src/system_sync/backup_manager.py:58-87 | with the file setting `a` and the directory `d` holding `x`, the count as written is 1 but two files are copied, so the copy phase reports 100 before the 75 that follows it |
| LocalStorage.StoragePath | backend/src/system_sync/local_storage.py:19-21 | the stored copy lies in `storage_dir/<app>/` under the file's own name |
| LocalStorage.ProgressRises | backend/src/system_sync/local_storage.py:69-81 | the chunked copy's callback values strictly rise, never exceed 100 and end at 100 when all is copied |
| LocalStorage.TotalSizeReverse | backend/src/system_sync/local_storage.py:178-180 | the usage total does not depend on the listing order |
| LocalStorage.FirstWithId | backend/src/system_sync/local_storage.py:158-159 | `None` exactly when no listed backup has the id; otherwise the earliest listed backup with it |
| LocalStorage.LocalStorage.constructor | backend/src/system_sync/local_storage.py:13-17 | the storage directory is created; the database is kept |
| LocalStorage.LocalStorage.UploadBackup | backend/src/system_sync/local_storage.py:23-118 | a missing path or a size outside the tolerance changes nothing; the application row is upserted with the metadata's category and type, or `Development` and `Application` when absent; a directory at the path, a read fault, a short copy or a taken storage path leaves no stored copy and no backup row (a directory at the path also removes a file already at the storage path); a directory standing at the storage path stays, the result is `None` with no progress and no row is added; on success the copy holds the file's bytes and exactly one row is appended |
| LocalStorage.LocalStorage.StoreFromDir | backend/src/system_sync/local_storage.py:62-86 | with a directory at the path, the open raises after the storage folder is made: the result is `None`, and a file already at the storage path is removed while a directory there stays |
| LocalStorage.LocalStorage.RecordBackup | backend/src/system_sync/local_storage.py:95-113 | a taken storage path removes the stored copy and adds no row; otherwise one backup row is appended with the next id and the storage path is returned |
| LocalStorage.LocalStorage.StoreCopy | backend/src/system_sync/local_storage.py:61-113 | the copy and the row after the application row exists: a directory at the storage path stays and gives `None` with no progress and no row; otherwise the same failure and success cases |
| LocalStorage.LocalStorage.CopyInChunks | backend/src/system_sync/local_storage.py:68-86 | a directory at the storage path fails the copy and stays, with no progress reported; otherwise the result of `WriteChunks` |
| LocalStorage.LocalStorage.WriteChunks | backend/src/system_sync/local_storage.py:68-86 | the chunk loop either copies all bytes and reports every chunk or fails at the faulting chunk, leaving no copy |
| LocalStorage.LocalStorage.DownloadBackup | backend/src/system_sync/local_storage.py:120-135 | it succeeds exactly when the stored file exists; the destination then holds its bytes, and its directory exists either way |
| LocalStorage.LocalStorage.UpdateBackupRestored | backend/src/system_sync/local_storage.py:137-144 | passed to the database: only that row's restore time changes |
| LocalStorage.LocalStorage.ListBackups | backend/src/system_sync/local_storage.py:146-152 | ignores the application name: the unfiltered database listing |
| LocalStorage.LocalStorage.StorageUsage | backend/src/system_sync/local_storage.py:175-189 | the total size and the number of the backups visible through the join |
| LocalStorage.LocalStorage.DeleteBackup | backend/src/system_sync/local_storage.py:154-173 | an unlisted id or a directory at the storage path changes nothing; otherwise the file and the row go |
| Database.FindApp | backend/src/system_sync/database.py:94-99 | the first row with that name and path, or none when no such row exists |
| Database.Joined | backend/src/system_sync/database.py:160-176 | the join lists exactly the rows whose application exists (and match the filter), each with its application's name; it keeps insertion order |
| Database.ReverseNewestFirst | backend/src/system_sync/database.py:155-184 | reversing an oldest-first listing gives the same rows, newest first |
| Database.Without | backend/src/system_sync/database.py:260 | exactly the rows with other ids remain, still in order |
| Database.Upserted | backend/src/system_sync/database.py:83-153 | an empty settings list, or a new name on a taken path, is refused and changes nothing; an existing (name, path) row is updated in place, keeping its id and creation time; otherwise a row is appended with the next id |
| Database.UpsertKeepsTable | backend/src/system_sync/database.py:39 | the upsert keeps the applications table valid: ids stay unique and `UNIQUE(path)` holds |
| Database.BackupTableAppend | backend/src/system_sync/database.py:55 | appending a row on a free storage path keeps unique ids, rising timestamps and `UNIQUE(storage_path)` |
| Database.MarkRestored | backend/src/system_sync/database.py:245-249 | only the rows with that id change, and only in their restore time |
| Database.Database.constructor | backend/src/system_sync/database.py:22-59 | a database starts with empty tables |
| Database.Database.AddApplication | backend/src/system_sync/database.py:83-153 | the tables after the call are those of `Upserted`; the backups are untouched |
| Database.Database.GetBackups | backend/src/system_sync/database.py:155-184 | exactly the visible rows matching the filter, each with its application's name, strictly newest first |
| Database.Database.AddBackup | backend/src/system_sync/database.py:186-238 | a taken storage path is refused and changes nothing; otherwise the row is appended with the next id, and the re-read through the join is `None` when the application is missing |
| Database.Database.UpdateBackupRestored | backend/src/system_sync/database.py:240-253 | it always reports `True`; the backups become `MarkRestored` at the current time |
| Database.Database.DeleteBackup | backend/src/system_sync/database.py:255-264 | it reports `True` exactly when a row had the id; afterwards exactly the other rows remain |
| AppDetector.InitPaths | backend/src/system_sync/app_detector.py:17-41 | the per-OS application folders, support and preferences folders; on Windows the environment variables or their defaults (`APPDATA` or empty); preferences equal support everywhere but macOS |
| AppDetector.AppDetector.constructor | backend/src/system_sync/app_detector.py:13-15 | the OS, home and environment are kept |
| AppDetector.AppDetector.GetCategory | backend/src/system_sync/app_detector.py:43-63 | the result is one of the five categories, chosen by the first term list that matches the lower-cased name; "Other" when none matches |
| AppDetector.AppDetector.CategoryOfLowered | backend/src/system_sync/app_detector.py:43-46 | the category ignores case and the path |
| AppDetector.AppDetector.UnityStudioIsDevelopment | backend/src/system_sync/app_detector.py:48-61 | checking development first wins: "Unity Studio" matches a gaming term yet is Development |
| AppDetector.PickedFacts | backend/src/system_sync/app_detector.py:65-106 | entries of increasing rank, each taken when its test holds, appear once each, exactly when their test holds, in rank order |
| AppDetector.AppDetector.EntryRanks | backend/src/system_sync/app_detector.py:65-106 | Application Support, Preferences and Game Saves rank in the order they are checked |
| AppDetector.AppDetector.GetAppSettings | backend/src/system_sync/app_detector.py:65-106 | at most the three known components, each present exactly when its path exists (and the OS is the one it belongs to), in source order |
| AppDetector.AppDetector.GetVSCodeSettings | backend/src/system_sync/app_detector.py:108-141 | Visual Studio Code is offered on macOS only, as a Development application, with its four components in this order and with their descriptions: `userData` at `Code/User` below Application Support, `extensions` at `.vscode/extensions` below home, `extensionGlobalStorage` at `Code/User/globalStorage` and `workspaceStorage` at `Code/User/workspaceStorage` below Application Support; none carries a name or size |
| AppDetector.AppDetector.VSCodeComponentsNest | backend/src/system_sync/app_detector.py:108-141 | the global and workspace storage components lie inside the user-data component, and the extensions folder is apart from it |
| AppDetector.AppDetector.GetChromeSettings | backend/src/system_sync/app_detector.py:161-179 | Chrome is offered exactly on macOS when its profile folder exists, as an application in `Other` with one `profile` component at `Google/Chrome` below Application Support |
| AppDetector.AppDetector.DetectApplications | backend/src/system_sync/app_detector.py:143-159 | nothing off macOS; on macOS, Visual Studio Code and then Chrome when its folder exists |
| AppHandler.HandlerPaths | backend/src/app_handler.py:14-25 | the handler's folders are the detector's folders for the same OS |
| AppHandler.BackupStep | backend/src/app_handler.py:85-92 | backing up one setting keeps every existing path |
| AppHandler.RestoreStep | backend/src/app_handler.py:107-118 | a missing saved copy changes nothing |
| AppHandler.BackupStepCopies | backend/src/app_handler.py:85-92 | backing up a setting onto a clear, separate place makes that place an exact copy of the setting |
| AppHandler.RestoreStepCopies | backend/src/app_handler.py:107-118 | restoring replaces the setting by an exact copy of the saved tree |
| AppHandler.RestoreAfterBackup | backend/src/app_handler.py:86-118 | restore after backup gives each setting back exactly as it was |
| AppHandler.AppHandler.constructor | backend/src/app_handler.py:10-12 | the OS, home, environment and disk are kept |
| AppHandler.AppHandler.GetAppSettings | backend/src/app_handler.py:57-77 | every reported setting lies at its key's path and that path exists |
| AppHandler.AppHandler.SettingsPresent | backend/src/app_handler.py:57-77 | each key is present exactly when its path exists (game saves on Windows only), in key order |
| AppHandler.KeysOfThree | backend/src/app_handler.py:57-77 | three location tests give keys in key order, each key present exactly when its test holds |
| AppHandler.AppHandler.GetMacOSApps | backend/src/app_handler.py:38-55 | exactly the `.app` entries of the existing application folders |
| AppHandler.AppsIn | backend/src/app_handler.py:48-53 | exactly the `.app` entries of one folder, each named and placed inside that folder |
| AppHandler.AppHandler.BackupAppSettings | backend/src/app_handler.py:79-96 | every detected setting is copied to `backup_dir/<app>/<key>` in turn, and the listing is `BackupListing` of the detected settings |
| AppHandler.BackupListing | backend/src/app_handler.py:84-94 | one entry per setting, in order, under the setting's key with `backup_dir/<app>/<key>` as its path |
| AppHandler.BackedUpKeeps | backend/src/app_handler.py:84-92 | copying settings out one after another never removes a path that existed |
| AppHandler.AppHandler.BackupSetting | backend/src/app_handler.py:85-94 | one setting is copied exactly when its path exists, and the disk becomes `BackupStep` of the old disk |
| AppHandler.AppHandler.RestoreAppSettings | backend/src/app_handler.py:98-120 | `False` with nothing touched when the application's backup folder is missing; otherwise each setting is restored in turn and the result is `True` |
| AppHandler.AppHandler.RestoreSetting | backend/src/app_handler.py:107-118 | one setting's restore is `RestoreStep` |
| ConfigManager.ConfigFile | backend/src/config_manager.py:13 | the file name is the application name followed by ".yaml" |
| ConfigManager.ConfigFileInjective | backend/src/config_manager.py:13 | distinct applications get distinct files |
| ConfigManager.Loaded | backend/src/config_manager.py:17-23 | a missing file loads as `{}`; a saved file loads as its configuration; it fails exactly on a directory or a foreign file |
| ConfigManager.Stored | backend/src/config_manager.py:11-15 | a save fails exactly when a directory stands at the file; otherwise it adds only that file |
| ConfigManager.Deleted | backend/src/config_manager.py:30-34 | a delete fails exactly on a directory; otherwise it removes only that file |
| ConfigManager.ListedStep | backend/src/config_manager.py:27-28 | listing one more distinct entry appends its name with ".yaml" removed exactly when it ends in ".yaml", and that entry was not listed before |
| ConfigManager.ListedFacts | backend/src/config_manager.py:27-28 | one name is listed per ".yaml" entry, every such entry is represented, and nothing else is listed |
| ConfigManager.LoadAfterSave | backend/src/config_manager.py:11-23 | loading after a save gives back what was saved |
| ConfigManager.SaveKeepsOthers | backend/src/config_manager.py:11-15 | a save leaves what every other application loads unchanged |
| ConfigManager.DeleteIdempotent | backend/src/config_manager.py:30-34 | deleting twice is the same as deleting once |
| ConfigManager.LoadAfterDelete | backend/src/config_manager.py:30-34 | after a delete the configuration loads as `{}` |
| ConfigManager.DeleteKeepsOthers | backend/src/config_manager.py:30-34 | a delete leaves what every other application loads unchanged |
| ConfigManager.ListedName | backend/src/config_manager.py:28 | a name without ".yaml" in it is listed as itself |
| ConfigManager.StrippedTwice | backend/src/config_manager.py:28 | "a.yaml" is saved as "a.yaml.yaml" and listed as "a" |
| ConfigManager.ConfigManager.constructor | backend/src/config_manager.py:7-9 | the given directory, or `~/.env_sync/configs` when it is missing or empty; existing entries are kept |
| ConfigManager.ConfigManager.ConfigPath | backend/src/config_manager.py:13 | the configuration file lies directly in the configuration directory and ends in ".yaml" |
| ConfigManager.ConfigManager.SaveAppConfig | backend/src/config_manager.py:11-15 | it succeeds exactly when `Stored` does, and the directory becomes `Stored`'s result |
| ConfigManager.ConfigManager.LoadAppConfig | backend/src/config_manager.py:17-23 | a missing file gives `{}`; it succeeds exactly when the file is missing or was saved by the manager |
| ConfigManager.ConfigManager.ListSavedConfigs | backend/src/config_manager.py:25-28 | one name per ".yaml" file, with ".yaml" removed; every such file is represented and nothing else |
| ConfigManager.ConfigManager.DeleteAppConfig | backend/src/config_manager.py:30-34 | it succeeds exactly when `Deleted` does, and the directory becomes `Deleted`'s result |
| VSCodePackager.Init | backend/src/system_sync/vscode_packager.py:33-71 | it fails exactly on an unsupported OS; the download URL is chosen by OS and ARM; the temporary directory is the given one or a fresh one to clean up; and it gives the per-OS template, app name and settings tables |
| VSCodePackager.DarwinUrlByMachine | backend/src/system_sync/vscode_packager.py:44-45 | on macOS the ARM build is chosen exactly when the machine name contains "arm", in any case |
| VSCodePackager.DownloadExtension | backend/src/system_sync/vscode_packager.py:91-96 | zip on macOS, exe on Windows, tar.gz elsewhere |
| VSCodePackager.DownloadPath | backend/src/system_sync/vscode_packager.py:98 | the download lies in the temporary directory, named `vscode.<ext>` |
| VSCodePackager.ReadJson | backend/src/system_sync/vscode_packager.py:198-208 | a missing file gives the default; it fails exactly on a directory or unparsable bytes; otherwise it gives the parsed value |
| VSCodePackager.ReadSnippets | backend/src/system_sync/vscode_packager.py:211-216 | a missing folder gives no snippets; otherwise exactly its `.json` files, keyed by name, each with its text read in text mode (`\r\n` and a lone `\r` become `\n`); it fails on a file at the folder or a directory ending in `.json` |
| VSCodePackager.ExtensionsOf | backend/src/system_sync/vscode_packager.py:222-223 | a document without "extensions" gives none; a non-object document is an error |
| VSCodePackager.NonBlank | backend/src/system_sync/vscode_packager.py:229 | exactly the non-blank lines, each stripped of the characters Python's `str.isspace` accepts |
| VSCodePackager.ReadExtensions | backend/src/system_sync/vscode_packager.py:218-230 | `extensions.json` wins over `extensions.txt`; with neither, no extensions; the text file is read with universal newlines |
| VSCodePackager.ReadSettingsDir | backend/src/system_sync/vscode_packager.py:192-241 | the settings, keybindings, snippets and extensions of the found folder, each as its reader gives it; it fails exactly when one of them fails |
| VSCodePackager.TxtSource | backend/src/system_sync/vscode_packager.py:224-230 | the chosen `extensions.txt` folder holds that file |
| VSCodePackager.ExtractSettingsFromBackup | backend/src/system_sync/vscode_packager.py:150-241 | the walk loop's result is `Extracted`: the first walked settings folder read by `ReadSettingsDir` |
| VSCodePackager.ExtractedFolder | backend/src/system_sync/vscode_packager.py:176-190 | with no settings folder below the backup it fails; when it succeeds, the folder read is a matching directory below the backup; the template test is made on the folder's path joined with the system's separator |
| VSCodePackager.WindowsNeedsBothFiles | backend/src/system_sync/vscode_packager.py:179-190 | on Windows the slash-written template never occurs in a backslash-joined path, so a folder matches exactly when it holds both `settings.json` and `keybindings.json` |
| VSCodePackager.JoinedNoSlash | backend/src/system_sync/vscode_packager.py:179-185 | a path joined from slash-free names with a slash-free separator holds no slash |
| Strings.Universal | backend/src/system_sync/vscode_packager.py:227-229 | reading in text mode turns every `\r\n` and lone `\r` into `\n`: no carriage return is left and the text does not grow |
| Strings.NotContains | backend/src/system_sync/vscode_packager.py:185 | a string without a character contains no substring holding that character |
| Strings.LoneReturnEndsLine | backend/src/system_sync/vscode_packager.py:227-229 | a lone carriage return ends a line, as a line feed does |
| VSCodePackager.ExtensionsSource | backend/src/system_sync/vscode_packager.py:218-230 | the extensions come from `extensions.json` when it exists; otherwise from the first walked folder with `extensions.txt`, as its stripped non-blank lines read with universal newlines |
| VSCodePackager.ExtractedExtensions | backend/src/system_sync/vscode_packager.py:218-230 | an extraction's extensions come from one of those two sources |
| VSCodePackager.MergedSettingsDir | backend/src/system_sync/vscode_packager.py:257-364 | the merged settings folder lies inside the packaged application and is named "User" |
| VSCodePackager.ExtensionsDoc | backend/src/system_sync/vscode_packager.py:386 | `extensions.json` is an object with a single "extensions" array of one item per extension |
| VSCodePackager.ExtensionsDocRoundTrip | backend/src/system_sync/vscode_packager.py:385-386 | reading back the written extensions document gives the same extensions |
| VSCodePackager.WrittenFiles | backend/src/system_sync/vscode_packager.py:371-386 | the merge writes exactly the settings, keybindings, snippets and extensions files and keeps everything else |
| VSCodePackager.SnippetFilesAt | backend/src/system_sync/vscode_packager.py:380-382 | the snippet files are exactly one per snippet name, each holding its text as a text-mode write leaves it on the running system |
| VSCodePackager.WriteSnippets | backend/src/system_sync/vscode_packager.py:380-382 | the snippet loop adds exactly the snippet files, written in text mode, whatever order it takes them in |
| VSCodePackager.MergeSettingsIntoVSCode | backend/src/system_sync/vscode_packager.py:243-389 | the packaged application's path is returned; the disk becomes `WriteSettings` in the merged settings folder |
| VSCodePackager.MergeThenRead | backend/src/system_sync/vscode_packager.py:371-386 | reading the merged folder back gives the settings, keybindings and extensions that were written |
| VSCodePackager.InstallLine | backend/src/system_sync/vscode_packager.py:473 | an install line ends in a newline, and its length is fixed by the extension's |
| VSCodePackager.InstalledByLine | backend/src/system_sync/vscode_packager.py:473 | the extension can be read back from its install line |
| VSCodePackager.InstallBlockEach | backend/src/system_sync/vscode_packager.py:472-473 | the lines of the install block are `InstallLine` applied to each extension, in order |
| VSCodePackager.InstallBlockLines | backend/src/system_sync/vscode_packager.py:472-473 | for single-line extension names, the install block is exactly one line per extension, in order |
| VSCodePackager.AppendInstallLines | backend/src/system_sync/vscode_packager.py:472-473 | the appending loop adds the install block after the script so far |
| VSCodePackager.MacSetupScript | backend/src/system_sync/vscode_packager.py:417-481 | the macOS script is its header, then the install block, then its footer |
| VSCodePackager.WindowsSetupScript | backend/src/system_sync/vscode_packager.py:483-539 | the same three-part shape for Windows |
| VSCodePackager.LinuxSetupScript | backend/src/system_sync/vscode_packager.py:541-621 | the same three-part shape for Linux |
| VSCodePackager.HeadersEndLines | backend/src/system_sync/vscode_packager.py:419-470 | every header is non-empty and ends in a newline |
| VSCodePackager.ScriptLines | backend/src/system_sync/vscode_packager.py:417-481 | a script's lines are the header's lines, one install line per extension and the footer's lines |
| VSCodePackager.InstalledInOrder | backend/src/system_sync/vscode_packager.py:472-473 | the block's k-th line installs the k-th extension |
| VSCodePackager.ScriptName | backend/src/system_sync/vscode_packager.py:399-407 | setup.command on macOS, setup.bat on Windows, setup.sh elsewhere |
| VSCodePackager.CreateSetupScript | backend/src/system_sync/vscode_packager.py:391-415 | exactly the OS's script is written under its name in the packaged folder, in text mode, so on Windows every line ends in `\r\n` |
| VSCodePackager.WrittenReadsBack | backend/src/system_sync/vscode_packager.py:409-410 | on every system, a text without carriage returns whose characters fit in a byte, written in text mode, reads back in text mode as it was |
| Strings.CrlfReadsBack | backend/src/system_sync/vscode_packager.py:409-410 | the Windows write translation (`\n` to `\r\n`) is undone by the text-mode read for text without carriage returns |
| VSCodePackager.MacDmgAsWritten | backend/src/system_sync/vscode_packager.py:648-782 | the DMG step as written, including the `finally` that reads `temp_dmg` |
| VSCodePackager.MacDmg | backend/src/system_sync/vscode_packager.py:648-782 | it always gives a package: the DMG exactly when every tool step succeeds, otherwise the zip fallback |
| VSCodePackager.MacDmgFinding | backend/src/system_sync/vscode_packager.py:664-667 | for an application path that is not a directory, the call as written raises instead of returning the zip |
| VSCodePackager.MacDmgAgrees | backend/src/system_sync/vscode_packager.py:696-782 | once `temp_dmg` is bound, the code as written and the corrected one agree |
| VSCodePackager.PackageVSCode | backend/src/system_sync/vscode_packager.py:623-646 | the package lies in `output`; a DMG exactly on a fully successful macOS run, a tarball exactly on a successful Linux run; otherwise a zip |
| VSCodePackager.FileType | backend/src/system_sync/vscode_packager.py:884-891 | the file type is decided by the path's suffix; "unknown" when none matches |
| VSCodePackager.SuffixesExclusive | backend/src/system_sync/vscode_packager.py:884-891 | no path has two of the three suffixes |
| VSCodePackager.PackagedFileType | backend/src/system_sync/vscode_packager.py:884-891 | a produced package's file type is never "unknown" and matches its name |
| Api.Guarded | backend/src/api.py:101-105 | an `HTTPException` passes through with its code; any other error becomes a 500 error; success gives a body |
| Api.CatchAll | backend/src/api.py:148-150 | every error, including an `HTTPException`, becomes a 500 error |
| Api.Updated | backend/src/api.py:55-60 | the progress entry of that application is set; every other entry is kept |
| Api.OnlyInProgress | backend/src/api.py:96 | after the start, every callback value leaves the application's entry "in-progress" with the last value |
| Api.ProgressStore.constructor | backend/src/api.py:53 | the progress store starts empty |
| Api.ProgressStore.UpdateProgress | backend/src/api.py:55-60 | the store becomes `Updated` |
| Api.ProgressStore.ReportProgress | backend/src/api.py:96 | the callback records the value as in progress |
| Api.ProgressStore.GetBackupProgress | backend/src/api.py:108-112 | the stored entry when present, a 404 error otherwise |
| Api.ProgressStore.BackupApp | backend/src/api.py:75-105 | the reply is `BackupAppReply`; a task starts exactly when the reply is a body, on the found application's settings, and only then is the progress set to 0 / "starting" |
| Api.Named | backend/src/api.py:80 | the test used to find the application by name |
| Api.BackupAppReply | backend/src/api.py:79-105 | a detection failure gives 500; a missing application or a missing settings list gives 404; otherwise "backup started" |
| Api.RestoreReply | backend/src/api.py:123-138 | success gives "restore completed", `False` gives 404 and an error gives 500; each in both directions |
| Api.DeleteReplyAsWritten | backend/src/api.py:140-150 | as written, a success is the only body, and every error is a 500 |
| Api.DeleteReply | backend/src/api.py:140-150 | corrected: success, a 404 for an unknown backup, and a 500 for an error; each in both directions |
| Api.DeleteMissingFinding | backend/src/api.py:144-150 | an unknown backup gets 500 as written and 404 as intended |
| Api.DeleteRepliesAgree | backend/src/api.py:140-150 | apart from the unknown backup, the two replies agree |
| Api.FlattenedMembers | backend/src/api.py:158-161 | the flattened listing holds exactly the backups of the groups |
| Api.FlattenBackups | backend/src/api.py:159-161 | the flattening loop computes `Flattened` |
| Api.FindDownload | backend/src/api.py:157-166 | a body exactly when some group has a backup with the id, and then the first such backup; otherwise a 404 error |
| Api.MediaType | backend/src/api.py:389-400 | the media type for each known file type, octet-stream otherwise |
| Api.AttachmentName | backend/src/api.py:389-400 | the download is offered as `VSCode_with_Settings.<type>` |
| Api.PackagedMedia | backend/src/api.py:389-400 | a produced package is never served as octet-stream |

## Left out

- The `.zip` branch of `extract_settings_from_backup` is not modelled. Only folder backups are; a zip is unpacked by external code.
- File I/O inside the packager is not modelled: downloading Visual Studio Code, `tar`, `unzip`, `hdiutil` and `requests`. Their outcomes are the `ToolRun` flags.
- `merge_settings_into_vscode` writes `install_extensions.sh`, launchers and `Info.plist`, and copies the application into the packaged folder. Only the settings folder's files are modelled.
- `__del__`'s cleanup of the temporary directory and the `chmod` in `_create_setup_script` are left out; permission bits are not modelled.
- `ExtensionsOf`: an "extensions" value that is not an array, or an array holding a non-string item, is an error in the model. The source returns such a value unchanged (vscode_packager.py:223) and fails only later, when it is written out.
- GetCategory: names are lower-cased with `Strings.Lower`, which folds only the ASCII letters A-Z, unlike Python's full Unicode `str.lower()` (which turns the KELVIN SIGN into `k`, for one). The same holds for `AppDetector.AppDetector.CategoryOfLowered`, and for the platform strings in `VSCodePackager.Init` and `VSCodePackager.DarwinUrlByMachine`; all of them take names to be ASCII.
- Text is decoded one character per byte; UTF-8 decoding is not modelled.
- UploadBackup: the metadata is a record with the keys `create_backup` sets plus an optional category and type; a dictionary of another shape, such as the HTTP upload endpoint may pass on, is not modelled.
- `os.makedirs` (`FileSystem.MakeDirs`) succeeds in the model even when a file stands at one of the folders it would create; the source raises there.
- `_create_zip_package` (`shutil.make_archive`, vscode_packager.py:840-845) is taken never to raise, so the zip fallback of `MacDmg` and `PackageVSCode` always yields its archive.
- StoreZip: a directory standing at the temporary zip path `backup_dir/<app>_<timestamp>.zip` is not modelled. In the source, `zipfile.ZipFile` raises there and the `finally`'s `os.remove` then raises out of the call (backup_manager.py:100, 142-143); the model writes the zip over it. The same holds for CreateBackup and UploadOutcome, which go through StoreZip.
- CreateBackup: for the same reason, a directory at the temporary zip path is replaced by the zip and later removed, where the source raises out of `create_backup`; UploadBackup, StoreCopy and CopyInChunks only ever see the zip file there.
- CreateBackup: the recorded running totals are returned as `recorded` instead of being written into the caller's setting dictionaries (backup_manager.py:47). That aliasing is not modelled.
- `ExtractSettingsFromBackup`: the backup folder's own path is taken to be written with the system's separator, as `os.walk` would give it.
- `MergeThenRead`: it does not cover the snippet round trip. Text is encoded one byte per character, so non-ASCII snippet text is outside the model.
- The JSON, YAML and zip encoders are codec parameters. The model states their round trip but not their byte formats.
- The content of a configuration file the manager did not write is unknown (`Unparsed`). Loading it is an error in the model; in the source it yields whatever that file parses to.
- Application names that contain a path separator are single path components in the model.
- `os.path.getsize` of a directory counts as 0.
- `listdir` or `os.walk` on a file, and `copytree` errors other than a file standing at the target, are not modelled.
- `RestoreAfterBackup`: it is proved for one setting at a time, not for several settings whose paths overlap.
- The Windows and Linux branches of `get_installed_apps` are left out. They call `_get_windows_apps` and `_get_linux_apps`, which the source does not define.
- `list_applications` and the `list_backups` endpoint only forward their callee's value, so they have no member of their own.
- The download endpoint's file response is not modelled; only its lookup is. The `create_package` route calls a method the packager does not have (api.py:325-326), so it is left out.
- FastAPI, `BackgroundTasks`, `async` and every form of concurrency are left out. A background task is the settings it would start on.
- Logging is left out.
- Progress values are exact reals, not floating point.
- Walk and listing order is a parameter or left open.
- Timestamps are a logical clock or a given string.

## Findings

| source | as written | input that shows it | evidently intended | confidence | as-written member | corrected member |
|---|---|---|---|---|---|---|
| backend/src/system_sync/backup_manager.py:140-144 | with no existing setting, the early `return False` runs the `finally`, which reads `backup_path` before it is bound | settings whose paths all do not exist | return `False` | not executed | BackupManager.NoSettingsOutcome | BackupManager.BackupManager.CreateBackup |
| backend/src/system_sync/backup_manager.py:58 | `total_files` counts only files below each setting's path, so a file setting counts 0 and the copy callback can exceed 50 | file setting `a` plus directory `d` holding `x`: the callback values are 50, 100, then 75 | count every file copied, so progress rises to 50, then 75, then 100 | not executed | BackupManager.OvershootAsWritten | BackupManager.BackupProgressRises |
| backend/src/system_sync/vscode_packager.py:777 | the `finally` removes `temp_dmg`, which is unbound when the application path is not a directory | an application path that is a file | return the zip fallback | not executed | VSCodePackager.MacDmgFinding | VSCodePackager.MacDmg |
| backend/src/api.py:148-150 | the `HTTPException(404)` raised for an unknown backup is caught by `except Exception` and becomes a 500 | deleting an id that no backup has | reply 404 "Backup not found" | not executed | Api.DeleteMissingFinding | Api.DeleteReply |
