/**
  The YAML configuration store: one file `<app>.yaml` per application in a
  configuration directory. The directory is a map from file names to
  items; a file the manager wrote holds the configuration it was given (the
  YAML encoder and decoder are taken to round-trip), any other entry is a
  file of unknown content or a sub-directory.
 */
module ConfigManager {
  import opened Wrappers
  import opened Strings
  import opened FileSystem

  /** A YAML value as `yaml.safe_dump` / `yaml.safe_load` exchange it. */
  datatype Value = Scalar(text: string) | Sequence(items: seq<Value>) | Mapping(entries: map<string, Value>)

  type Config = map<string, Value>

  /** An entry of the configuration directory. */
  datatype Item = Saved(config: Config) | Unparsed | Folder

  type Store = map<Name, Item>

  /** `f"{app_name}.yaml"` (config_manager.py:13, 19, 32). */
  function ConfigFile(app: string): (n: Name)
    ensures EndsWith(n, ".yaml") && |n| == |app| + 5 && n[..|app|] == app
  {
    app + ".yaml"
  }

  lemma ConfigFileInjective(a: string, b: string)
    requires ConfigFile(a) == ConfigFile(b)
    ensures a == b
  {
    assert a == ConfigFile(a)[..|a|];
  }

  /**
    `load_app_config` (config_manager.py:17-23): `{}` when the file is
    missing, the saved configuration when the manager wrote it; reading a
    sub-directory fails, and the content of a foreign file is not modelled.
   */
  function Loaded(dir: Store, app: string): (r: Result<Config>)
    ensures ConfigFile(app) !in dir ==> r == Ok(map[])
    ensures ConfigFile(app) in dir && dir[ConfigFile(app)].Saved? ==> r == Ok(dir[ConfigFile(app)].config)
    ensures r.Ok? <==> ConfigFile(app) !in dir || dir[ConfigFile(app)].Saved?
  {
    var n := ConfigFile(app);
    if n !in dir then Ok(map[])
    else match dir[n]
      case Saved(c) => Ok(c)
      case Unparsed => Err("the file was not written by the configuration manager")
      case Folder => Err("is a directory")
  }

  /**
    `save_app_config` (config_manager.py:11-15): the file is created or
    overwritten; opening a sub-directory for writing fails.
   */
  function Stored(dir: Store, app: string, c: Config): (r: Option<Store>)
    ensures r.None? <==> ConfigFile(app) in dir && dir[ConfigFile(app)].Folder?
    ensures r.Some? ==> r.value.Keys == dir.Keys + {ConfigFile(app)}
  {
    var n := ConfigFile(app);
    if n in dir && dir[n].Folder? then None else Some(dir[n := Saved(c)])
  }

  /**
    `delete_app_config` (config_manager.py:30-34): the file is removed when
    present; `os.remove` of a sub-directory fails.
   */
  function Deleted(dir: Store, app: string): (r: Option<Store>)
    ensures r.None? <==> ConfigFile(app) in dir && dir[ConfigFile(app)].Folder?
    ensures r.Some? ==> r.value.Keys == dir.Keys - {ConfigFile(app)}
  {
    var n := ConfigFile(app);
    if n !in dir then Some(dir)
    else if dir[n].Folder? then None
    else Some(dir - {n})
  }

  /** The names `list_saved_configs` reports come from these files (config_manager.py:27-28). */
  function YamlFiles(dir: Store): set<Name> {
    set f | f in dir && EndsWith(f, ".yaml")
  }

  /** The entries ending in ".yaml" among a listing. */
  function YamlAmong(files: seq<Name>): set<Name> {
    set f | f in files && EndsWith(f, ".yaml")
  }

  /** The names reported for a listing, in its order. */
  function Listed(files: seq<Name>): seq<string> {
    if files == [] then []
    else
      var f := files[|files| - 1];
      Listed(files[..|files| - 1]) + (if EndsWith(f, ".yaml") then [RemoveAll(f, ".yaml")] else [])
  }

  /**
    For a listing without repetitions, one name per ".yaml" entry, every
    such entry represented, and nothing else.
   */
  lemma {:induction false} ListedFacts(files: seq<Name>)
    requires forall j, k | 0 <= j < k < |files| :: files[j] != files[k]
    ensures |Listed(files)| == |YamlAmong(files)|
    ensures forall f | f in YamlAmong(files) :: RemoveAll(f, ".yaml") in Listed(files)
    ensures forall n | n in Listed(files) :: exists f | f in YamlAmong(files) :: n == RemoveAll(f, ".yaml")
  {
    if files != [] {
      var init, f := files[..|files| - 1], files[|files| - 1];
      ListedStep(files);
      ListedFacts(init);
      forall n | n in Listed(files)
        ensures exists g | g in YamlAmong(files) :: n == RemoveAll(g, ".yaml")
      {
        if n !in Listed(init) {
          assert n == RemoveAll(f, ".yaml") && f in YamlAmong(files);
        }
      }
    }
  }

  /** The last entry of a listing without repetitions adds at most one name and one new ".yaml" entry. */
  lemma ListedStep(files: seq<Name>)
    requires files != [] && forall j, k | 0 <= j < k < |files| :: files[j] != files[k]
    ensures var init, f := files[..|files| - 1], files[|files| - 1];
      && (forall j, k | 0 <= j < k < |init| :: init[j] != init[k])
      && Listed(files) == Listed(init) + (if EndsWith(f, ".yaml") then [RemoveAll(f, ".yaml")] else [])
      && YamlAmong(files) == YamlAmong(init) + (if EndsWith(f, ".yaml") then {f} else {})
      && f !in YamlAmong(init)
  {
    var init, f := files[..|files| - 1], files[|files| - 1];
    assert files == init + [f];
  }

  /** Loading after a save gives back what was saved. */
  lemma LoadAfterSave(dir: Store, app: string, c: Config)
    requires Stored(dir, app, c).Some?
    ensures Loaded(Stored(dir, app, c).value, app) == Ok(c)
  {
  }

  /** Saving one application's configuration leaves what every other application loads unchanged. */
  lemma SaveKeepsOthers(dir: Store, app: string, c: Config, other: string)
    requires Stored(dir, app, c).Some? && other != app
    ensures Loaded(Stored(dir, app, c).value, other) == Loaded(dir, other)
  {
    if ConfigFile(other) == ConfigFile(app) {
      ConfigFileInjective(other, app);
    }
  }

  /** Deleting twice is the same as deleting once. */
  lemma DeleteIdempotent(dir: Store, app: string)
    requires Deleted(dir, app).Some?
    ensures Deleted(Deleted(dir, app).value, app) == Deleted(dir, app)
  {
  }

  /** After a delete, loading gives the empty configuration. */
  lemma LoadAfterDelete(dir: Store, app: string)
    requires Deleted(dir, app).Some?
    ensures Loaded(Deleted(dir, app).value, app) == Ok(map[])
  {
  }

  /** Deleting one application's configuration leaves what every other application loads unchanged. */
  lemma DeleteKeepsOthers(dir: Store, app: string, other: string)
    requires Deleted(dir, app).Some? && other != app
    ensures Loaded(Deleted(dir, app).value, other) == Loaded(dir, other)
  {
    if ConfigFile(other) == ConfigFile(app) {
      ConfigFileInjective(other, app);
    }
  }

  /** ".yaml" has no proper border, so it cannot start inside a shorter name followed by ".yaml". */
  lemma NoYamlAt(app: string)
    requires 0 < |app| < 5
    ensures !StartsWith(app + ".yaml", ".yaml")
  {
    var s := app + ".yaml";
    assert s[|app|] == '.';
    assert ".yaml"[|app|] != '.';
    assert |s| >= 5 && s[..5][|app|] == '.';
  }

  /**
    A saved name that does not itself contain ".yaml" is listed as exactly
    that name; `StrippedTwice` shows one that does.
   */
  lemma {:induction false} ListedName(app: string)
    requires !Contains(app, ".yaml")
    ensures RemoveAll(ConfigFile(app), ".yaml") == app
    decreases |app|
  {
    var s := app + ".yaml";
    if app == "" {
      assert s[5..] == "";
    } else {
      assert !StartsWith(s, ".yaml") by {
        if |app| < 5 {
          NoYamlAt(app);
        } else {
          assert s[..5] == app[0..5];
          assert !OccursAt(app, ".yaml", 0);
        }
      }
      {
        assert s[1..] == app[1..] + ".yaml";
        assert !Contains(app[1..], ".yaml") by {
          forall i | 0 <= i <= |app[1..]| - 5
            ensures !OccursAt(app[1..], ".yaml", i)
          {
            assert app[1..][i..i + 5] == app[i + 1..i + 1 + 5];
            assert !OccursAt(app, ".yaml", i + 1);
          }
        }
        ListedName(app[1..]);
      }
    }
  }

  /** Every ".yaml" occurrence is removed, so "a.yaml" is saved as "a.yaml.yaml" and listed as "a". */
  lemma StrippedTwice()
    ensures RemoveAll(ConfigFile("a.yaml"), ".yaml") == "a"
  {
    var s := ConfigFile("a.yaml");
    assert s == "a.yaml.yaml";
    assert s[..5][0] == 'a';
    assert s[1..] == ".yaml.yaml";
    assert StartsWith(s[1..], ".yaml");
    assert s[1..][5..] == ".yaml";
    assert StartsWith(".yaml", ".yaml");
    assert ".yaml"[5..] == "";
  }

  /** The manager: its configuration directory and that directory's entries. */
  class ConfigManager {
    const configDir: Path
    var dir: Store

    /**
      `__init__` (config_manager.py:7-9): `config_dir`, or
      `~/.env_sync/configs` when it is missing or empty; `initial` is what
      that directory already holds (`os.makedirs(..., exist_ok=True)` keeps it).
      `Some([])` stands for the empty string, which is falsy; the root
      directory "/" is not a `config_dir` this model can be given.
     */
    constructor (configDir: Option<Path>, home: Path, initial: Store)
      ensures configDir.Some? && configDir.value != [] ==> this.configDir == configDir.value
      ensures configDir.None? || configDir.value == [] ==> this.configDir == home + [".env_sync", "configs"]
      ensures dir == initial
    {
      this.configDir := if configDir.Some? && configDir.value != [] then configDir.value else home + [".env_sync", "configs"];
      dir := initial;
    }

    /** Where an application's configuration file lives. */
    function ConfigPath(app: string): (p: Path)
      ensures |p| == |configDir| + 1 && p[..|configDir|] == configDir && EndsWith(p[|configDir|], ".yaml")
    {
      configDir + [ConfigFile(app)]
    }

    /** `save_app_config` (config_manager.py:11-15); `false` where the write would raise. */
    method SaveAppConfig(app: string, c: Config) returns (ok: bool)
      modifies this
      ensures ok <==> Stored(old(dir), app, c).Some?
      ensures dir == if ok then Stored(old(dir), app, c).value else old(dir)
    {
      var n := ConfigFile(app);
      if n in dir && dir[n].Folder? {
        return false;
      }
      dir := dir[n := Saved(c)];
      ok := true;
    }

    /** `load_app_config` (config_manager.py:17-23). */
    function LoadAppConfig(app: string): (r: Result<Config>)
      reads this
      ensures ConfigFile(app) !in dir ==> r == Ok(map[])
      ensures r.Ok? <==> ConfigFile(app) !in dir || dir[ConfigFile(app)].Saved?
    {
      Loaded(dir, app)
    }

    /**
      `list_saved_configs` (config_manager.py:25-28): one name per entry
      ending in ".yaml", with every ".yaml" in it removed, in directory order.
     */
    method ListSavedConfigs() returns (names: seq<string>)
      ensures |names| == |YamlFiles(dir)|
      ensures forall f | f in YamlFiles(dir) :: RemoveAll(f, ".yaml") in names
      ensures forall n | n in names :: exists f | f in YamlFiles(dir) :: n == RemoveAll(f, ".yaml")
    {
      var files := Enumerate(dir.Keys);
      names := [];
      for i := 0 to |files|
        invariant names == Listed(files[..i])
      {
        assert files[..i + 1][..i] == files[..i];
        if EndsWith(files[i], ".yaml") {
          names := names + [RemoveAll(files[i], ".yaml")];
        }
      }
      assert files[..|files|] == files;
      ListedFacts(files);
      assert YamlAmong(files) == YamlFiles(dir);
    }

    /** `delete_app_config` (config_manager.py:30-34); `false` where the removal would raise. */
    method DeleteAppConfig(app: string) returns (ok: bool)
      modifies this
      ensures ok <==> Deleted(old(dir), app).Some?
      ensures dir == if ok then Deleted(old(dir), app).value else old(dir)
    {
      var n := ConfigFile(app);
      if n in dir {
        if dir[n].Folder? {
          return false;
        }
        dir := dir - {n};
      }
      ok := true;
    }
  }
}
