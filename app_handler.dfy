/**
  The command-line application handler: where an application keeps its
  settings, a copy of them under `backup_dir/<app>/<setting type>`, and
  the copy back. The filesystem is the shared `Disk`; the system name, the
  home directory and the environment are constructor parameters.
 */
module AppHandler {
  import opened Wrappers
  import opened Strings
  import opened FileSystem
  import AppDetector

  /** The three setting types `get_app_settings` can report. */
  datatype Key = AppSupport | Preferences | GameSaves

  /** The dict key of a setting type, also the name of its folder in a backup. */
  function KeyName(k: Key): string {
    match k
    case AppSupport => "app_support"
    case Preferences => "preferences"
    case GameSaves => "game_saves"
  }

  /** One `settings` / `backup_paths` dict item, in insertion order. */
  datatype Location = Location(key: Key, path: Path)

  /** An installed application as `_get_macos_apps` lists it. */
  datatype InstalledApp = InstalledApp(name: string, path: Path, kind: string)

  /** The keys of a dict, in insertion order. */
  function Keys(ls: seq<Location>): (ks: seq<Key>)
    ensures |ks| == |ls| && forall i | 0 <= i < |ls| :: ks[i] == ls[i].key
  {
    if ls == [] then [] else [ls[0].key] + Keys(ls[1..])
  }

  /** `ks` lists some setting types, each at most once, in the order `get_app_settings` fills its dict. */
  predicate InKeyOrder(ks: seq<Key>) {
    forall i, j | 0 <= i < j < |ks| :: Position(ks[i]) < Position(ks[j])
  }

  function Position(k: Key): nat {
    match k
    case AppSupport => 0
    case Preferences => 1
    case GameSaves => 2
  }

  /** The dict `get_app_settings` fills when each test comes out as `ea`, `eb` and `ec`. */
  function Filled(ea: bool, eb: bool, ec: bool, pa: Path, pb: Path, pc: Path): seq<Location> {
    (if ea then [Location(AppSupport, pa)] else [])
    + (if eb then [Location(Preferences, pb)] else [])
    + (if ec then [Location(GameSaves, pc)] else [])
  }

  /** Its keys are in key order, and each is present exactly when its test held. */
  lemma KeysOfThree(ea: bool, eb: bool, ec: bool, pa: Path, pb: Path, pc: Path)
    ensures var ks := Keys(Filled(ea, eb, ec, pa, pb, pc));
      InKeyOrder(ks) && (AppSupport in ks <==> ea) && (Preferences in ks <==> eb) && (GameSaves in ks <==> ec)
  {
    var ks := (if ea then [AppSupport] else []) + (if eb then [Preferences] else []) + (if ec then [GameSaves] else []);
    assert Keys(Filled(ea, eb, ec, pa, pb, pc)) == ks;
    if ea && eb && ec {
      assert ks == [AppSupport, Preferences, GameSaves];
    } else if ea && eb {
      assert ks == [AppSupport, Preferences];
    } else if ea && ec {
      assert ks == [AppSupport, GameSaves];
    } else if eb && ec {
      assert ks == [Preferences, GameSaves];
    } else if ea {
      assert ks == [AppSupport];
    } else if eb {
      assert ks == [Preferences];
    } else if ec {
      assert ks == [GameSaves];
    } else {
      assert ks == [];
    }
  }

  /**
    `_init_app_paths` (app_handler.py:14-25): the application-data and
    preferences folders, the same as the detector's on every system.
   */
  function HandlerPaths(system: string, home: Path, env: map<string, Path>): (r: (Path, Path))
    ensures r.0 == AppDetector.InitPaths(system, home, env).appSupport
    ensures r.1 == AppDetector.InitPaths(system, home, env).preferences
  {
    if system == "Darwin" then (home + ["Library", "Application Support"], home + ["Library", "Preferences"])
    else if system == "Windows" then
      var support := if "APPDATA" in env then env["APPDATA"] else [];
      (support, support)
    else (home + [".config"], home + [".config"])
  }

  /** The entry `_get_macos_apps` makes for item `app` of folder `location`. */
  function MacApp(location: Path, app: Name): InstalledApp
    requires EndsWith(app, ".app")
  {
    InstalledApp(RemoveAll(app, ".app"), location + [app], "application")
  }

  /** The applications directly inside one existing folder: the inner loop of app_handler.py:48-53. */
  method AppsIn(fs: FS, location: Path) returns (found: seq<InstalledApp>)
    ensures forall a | a in found :: exists n | n in Children(fs, location) && EndsWith(n, ".app") :: a == MacApp(location, n)
    ensures forall n | n in Children(fs, location) && EndsWith(n, ".app") :: MacApp(location, n) in found
  {
    var names := Enumerate(Children(fs, location));
    found := [];
    for k := 0 to |names|
      invariant forall a | a in found :: exists n | n in Children(fs, location) && EndsWith(n, ".app") :: a == MacApp(location, n)
      invariant forall n | n in names[..k] && EndsWith(n, ".app") :: MacApp(location, n) in found
    {
      var app := names[k];
      if EndsWith(app, ".app") {
        found := found + [MacApp(location, app)];
      }
    }
    assert names[..|names|] == names;
  }

  /**
    One setting copied out (app_handler.py:85-92): the parent of the backup
    path is created, then a file is copied with `copy2` and a folder with
    `copytree`; a missing source is skipped.
   */
  function BackupStep(fs: FS, path: Path, backupPath: Path): (r: FS)
    ensures forall k | k in fs :: k in r
  {
    if !Exists(fs, path) then fs
    else
      var made := MakeDirs(fs, Dirname(backupPath));
      if IsFile(made, path) then CopyFile(made, path, backupPath) else CopyTree(made, path, backupPath)
  }

  /** The filesystem after the first `k` settings of `ss` were copied out to `base/<key>`. */
  function BackedUp(fs: FS, ss: seq<Location>, base: Path, k: nat): FS
    requires k <= |ss|
  {
    if k == 0 then fs else BackupStep(BackedUp(fs, ss, base, k - 1), ss[k - 1].path, base + [KeyName(ss[k - 1].key)])
  }

  /**
    One setting copied back (app_handler.py:107-118): with no saved copy
    nothing happens; otherwise whatever stands at the setting's path is
    removed and the saved copy is copied there.
   */
  function RestoreStep(fs: FS, saved: Path, path: Path): (r: FS)
    ensures !Exists(fs, saved) ==> r == fs
  {
    if !Exists(fs, saved) then fs
    else
      var cleared := if Exists(fs, path) then RemoveTree(fs, path) else fs;
      if IsFile(cleared, saved) then CopyFile(cleared, saved, path) else CopyTree(cleared, saved, path)
  }

  /** The filesystem after the first `k` settings of `ss` were restored from `base/<key>`. */
  function RestoredFrom(fs: FS, ss: seq<Location>, base: Path, k: nat): FS
    requires k <= |ss|
  {
    if k == 0 then fs else RestoreStep(RestoredFrom(fs, ss, base, k - 1), base + [KeyName(ss[k - 1].key)], ss[k - 1].path)
  }

  /** The `backup_paths` dict after the first `k` settings of `ss`: each key with `base/<key>`, in order. */
  function BackupListing(ss: seq<Location>, base: Path, k: nat): (r: seq<Location>)
    requires k <= |ss|
    ensures |r| == k
    ensures forall i | 0 <= i < k :: r[i].key == ss[i].key && r[i].path == base + [KeyName(ss[i].key)]
  {
    if k == 0 then [] else BackupListing(ss, base, k - 1) + [Location(ss[k - 1].key, base + [KeyName(ss[k - 1].key)])]
  }

  /** Copying settings out never removes a path. */
  lemma {:induction false} BackedUpKeeps(fs: FS, ss: seq<Location>, base: Path, k: nat, p: Path)
    requires k <= |ss| && p in fs
    ensures p in BackedUp(fs, ss, base, k)
  {
    if k > 0 {
      BackedUpKeeps(fs, ss, base, k - 1, p);
    }
  }

  /** Copying a setting out to a clear place apart from it puts an identical tree there. */
  lemma BackupStepCopies(fs: FS, path: Path, backupPath: Path)
    requires Solid(fs, path) && Apart(path, backupPath) && Clear(fs, backupPath)
    ensures Subtree(BackupStep(fs, path, backupPath), backupPath) == Subtree(fs, path)
  {
    var made := MakeDirs(fs, Dirname(backupPath));
    assert backupPath != [];
    assert !IsPrefix(path, Dirname(backupPath));
    MakeDirsKeepsOff(fs, Dirname(backupPath), path);
    SubtreeAt(fs, path, []);
    SubtreeAt(made, path, []);
    assert path + [] == path;
    assert Clear(made, backupPath) by {
      forall k | k in made
        ensures !IsPrefix(backupPath, k)
      {
        if k !in fs {
          assert |k| < |backupPath|;
        }
      }
    }
    if IsFile(made, path) {
      CopyFileSubtree(made, path, backupPath);
    } else {
      CopyTreeFromSubtree(made, path, made, backupPath);
    }
  }

  /** Restoring a solid saved copy apart from the setting makes the setting's tree identical to it. */
  lemma RestoreStepCopies(fs: FS, saved: Path, path: Path)
    requires Solid(fs, saved) && Apart(saved, path) && (path in fs || Clear(fs, path))
    ensures Subtree(RestoreStep(fs, saved, path), path) == Subtree(fs, saved)
  {
    var cleared := if Exists(fs, path) then RemoveTree(fs, path) else fs;
    if Exists(fs, path) {
      RemoveTreeKeepsApart(fs, path, saved);
    }
    assert Subtree(cleared, saved) == Subtree(fs, saved);
    SubtreeAt(fs, saved, []);
    SubtreeAt(cleared, saved, []);
    assert saved + [] == saved;
    if IsFile(cleared, saved) {
      CopyFileSubtree(cleared, saved, path);
    } else {
      CopyTreeFromSubtree(cleared, saved, cleared, path);
    }
  }

  /**
    Restoring right after the first backup of a setting (its backup place
    clear, apart from it) brings back exactly the tree the setting had.
   */
  lemma RestoreAfterBackup(fs: FS, path: Path, backupPath: Path)
    requires Tree(fs) && path in fs && Apart(path, backupPath) && Clear(fs, backupPath)
    ensures Subtree(RestoreStep(BackupStep(fs, path, backupPath), backupPath, path), path) == Subtree(fs, path)
  {
    TreeSolid(fs, path);
    var saved := BackupStep(fs, path, backupPath);
    BackupStepCopies(fs, path, backupPath);
    SubtreeAt(fs, path, []);
    SubtreeAt(saved, backupPath, []);
    assert path + [] == path && backupPath + [] == backupPath;
    assert Solid(saved, backupPath);
    RestoreStepCopies(saved, backupPath, path);
  }

  /** The handler: the system and the locations fixed when it is built (app_handler.py:10-12). */
  class AppHandler {
    const system: string
    const home: Path
    const env: map<string, Path>
    const disk: Disk
    const appSupport: Path
    const preferences: Path

    constructor (system: string, home: Path, env: map<string, Path>, disk: Disk)
      ensures this.system == system && this.home == home && this.env == env && this.disk == disk
      ensures (appSupport, preferences) == HandlerPaths(system, home, env)
    {
      this.system := system;
      this.home := home;
      this.env := env;
      this.disk := disk;
      var paths := HandlerPaths(system, home, env);
      appSupport := paths.0;
      preferences := paths.1;
    }

    /** Where each setting key of `appName` lives. */
    function PathFor(key: Key, appName: string): Path {
      match key
      case AppSupport => appSupport + [appName]
      case Preferences => preferences + [appName + ".plist"]
      case GameSaves => home + ["Documents", "My Games", appName]
    }

    /**
      `get_app_settings` (app_handler.py:57-77): `app_support` when the
      application folder exists, `preferences` when the plist exists (on
      every system), `game_saves` when the saves folder exists on Windows.
     */
    function GetAppSettings(fs: FS, appName: string): (r: seq<Location>)
      ensures forall l | l in r :: l.path == PathFor(l.key, appName) && Exists(fs, l.path)
    {
      var support := PathFor(AppSupport, appName);
      var prefs := PathFor(Preferences, appName);
      var saves := PathFor(GameSaves, appName);
      Filled(Exists(fs, support), Exists(fs, prefs), system == "Windows" && Exists(fs, saves), support, prefs, saves)
    }

    /**
      The settings come in the dict's insertion order, and each setting type
      is present exactly when its path exists (game saves only on Windows).
     */
    lemma SettingsPresent(fs: FS, appName: string)
      ensures var r := GetAppSettings(fs, appName);
        && InKeyOrder(Keys(r))
        && (AppSupport in Keys(r) <==> Exists(fs, PathFor(AppSupport, appName)))
        && (Preferences in Keys(r) <==> Exists(fs, PathFor(Preferences, appName)))
        && (GameSaves in Keys(r) <==> system == "Windows" && Exists(fs, PathFor(GameSaves, appName)))
    {
      KeysOfThree(Exists(fs, PathFor(AppSupport, appName)), Exists(fs, PathFor(Preferences, appName)),
        system == "Windows" && Exists(fs, PathFor(GameSaves, appName)),
        PathFor(AppSupport, appName), PathFor(Preferences, appName), PathFor(GameSaves, appName));
    }

    /**
      `_get_macos_apps` (app_handler.py:38-55): every item whose name ends in
      ".app" in `/Applications` and `~/Applications` (those that exist),
      named without its ".app" occurrences.
     */
    method GetMacOSApps() returns (apps: seq<InstalledApp>)
      ensures forall a | a in apps :: exists loc, n | loc in MacLocations() && n in Children(disk.files, loc) ::
        Exists(disk.files, loc) && EndsWith(n, ".app") && a == MacApp(loc, n)
      ensures forall loc, n | loc in MacLocations() && Exists(disk.files, loc) && n in Children(disk.files, loc) && EndsWith(n, ".app") ::
        MacApp(loc, n) in apps
    {
      var fs := disk.files;
      var locations := MacLocations();
      apps := [];
      for i := 0 to |locations|
        invariant forall a | a in apps :: exists loc, n | loc in locations[..i] && n in Children(fs, loc) ::
          Exists(fs, loc) && EndsWith(n, ".app") && a == MacApp(loc, n)
        invariant forall j, n | 0 <= j < i && Exists(fs, locations[j]) && n in Children(fs, locations[j]) && EndsWith(n, ".app") ::
          MacApp(locations[j], n) in apps
      {
        var location := locations[i];
        assert location in locations[..i + 1];
        assert forall loc | loc in locations[..i] :: loc in locations[..i + 1];
        if Exists(fs, location) {
          var found := AppsIn(fs, location);
          apps := apps + found;
        }
      }
      assert locations[..|locations|] == locations;
    }

    /** `["/Applications", os.path.join(home, "Applications")]` */
    function MacLocations(): seq<Path> {
      [["Applications"], home + ["Applications"]]
    }

    /**
      `backup_app_settings` (app_handler.py:79-96): every detected setting is
      copied to `backup_dir/<app>/<key>` in turn and, as it still exists
      when its turn comes, listed under its key with that path.
     */
    method BackupAppSettings(appName: string, backupDir: Path) returns (backupPaths: seq<Location>)
      modifies disk
      ensures var ss := GetAppSettings(old(disk.files), appName);
        && backupPaths == BackupListing(ss, backupDir + [appName], |ss|)
        && disk.files == BackedUp(old(disk.files), ss, backupDir + [appName], |ss|)
    {
      var settings := GetAppSettings(disk.files, appName);
      ghost var fs0 := disk.files;
      var base := backupDir + [appName];
      backupPaths := [];
      for i := 0 to |settings|
        invariant disk.files == BackedUp(fs0, settings, base, i)
        invariant backupPaths == BackupListing(settings, base, i)
      {
        var key := settings[i].key;
        var backupPath := base + [KeyName(key)];
        assert settings[i] in settings;
        BackedUpKeeps(fs0, settings, base, i, settings[i].path);
        var copied := BackupSetting(settings[i].path, backupPath);
        if copied {
          backupPaths := backupPaths + [Location(key, backupPath)];
        }
      }
    }

    /** The body of the loop of `backup_app_settings` (app_handler.py:85-94) for one setting. */
    method BackupSetting(path: Path, backupPath: Path) returns (copied: bool)
      modifies disk
      ensures copied <==> Exists(old(disk.files), path)
      ensures disk.files == BackupStep(old(disk.files), path, backupPath)
    {
      copied := Exists(disk.files, path);
      if copied {
        disk.files := MakeDirs(disk.files, Dirname(backupPath));
        if IsFile(disk.files, path) {
          disk.files := CopyFile(disk.files, path, backupPath);
        } else {
          disk.files := CopyTree(disk.files, path, backupPath);
        }
      }
    }

    /**
      `restore_app_settings` (app_handler.py:98-120): `False`, touching
      nothing, when `backup_dir/<app>` is missing; otherwise every detected
      setting is restored in turn from `backup_dir/<app>/<key>` and the
      result is `True`.
     */
    method RestoreAppSettings(appName: string, backupDir: Path) returns (ok: bool)
      modifies disk
      ensures ok <==> Exists(old(disk.files), backupDir + [appName])
      ensures !ok ==> disk.files == old(disk.files)
      ensures ok ==> var ss := GetAppSettings(old(disk.files), appName);
        disk.files == RestoredFrom(old(disk.files), ss, backupDir + [appName], |ss|)
    {
      var backupPath := backupDir + [appName];
      if !Exists(disk.files, backupPath) {
        return false;
      }
      var settings := GetAppSettings(disk.files, appName);
      ghost var fs0 := disk.files;
      for i := 0 to |settings|
        invariant disk.files == RestoredFrom(fs0, settings, backupPath, i)
      {
        RestoreSetting(backupPath + [KeyName(settings[i].key)], settings[i].path);
      }
      ok := true;
    }

    /** The body of the loop of `restore_app_settings` (app_handler.py:107-118) for one setting. */
    method RestoreSetting(saved: Path, path: Path)
      modifies disk
      ensures disk.files == RestoreStep(old(disk.files), saved, path)
    {
      if Exists(disk.files, saved) {
        if Exists(disk.files, path) {
          disk.files := RemoveTree(disk.files, path);
        }
        if IsFile(disk.files, saved) {
          disk.files := CopyFile(disk.files, saved, path);
        } else {
          disk.files := CopyTree(disk.files, saved, path);
        }
      }
    }
  }
}
