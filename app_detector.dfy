/**
  Application detection: the per-system settings locations, a name-based
  category, and the two applications whose settings the detector knows
  (Visual Studio Code and Google Chrome). `platform.system()`, the home
  directory and the environment are constructor parameters; the filesystem
  the detector looks at is passed to each query.
 */
module AppDetector {
  import opened Wrappers
  import opened Strings
  import opened FileSystem
  import opened Settings

  /** The locations `_init_paths` sets up. */
  datatype Paths = Paths(home: Path, appLocations: seq<Path>, appSupport: Path, preferences: Path)

  /** An application record as the detector returns it. */
  datatype App = App(name: string, path: Path, category: string, kind: string, settings: seq<Setting>)

  /** `os.environ.get(key, default)`. */
  function EnvOr(env: map<string, Path>, key: string, default: Path): (p: Path)
    ensures key in env ==> p == env[key]
    ensures key !in env ==> p == default
  {
    if key in env then env[key] else default
  }

  /**
    `_init_paths` (app_detector.py:17-41): application folders, the
    application-data folder and the preferences folder of each system;
    preferences is its own folder only on Darwin.
   */
  function InitPaths(system: string, home: Path, env: map<string, Path>): (p: Paths)
    ensures p.home == home
    ensures system == "Darwin" ==> p.appLocations == [["Applications"], home + ["Applications"]]
    ensures system == "Windows" ==> p.appLocations == [EnvOr(env, "ProgramFiles", ["C:", "Program Files"]), EnvOr(env, "ProgramFiles(x86)", ["C:", "Program Files (x86)"])]
    ensures system != "Darwin" && system != "Windows" ==> p.appLocations == [["usr", "share", "applications"], home + [".local", "share", "applications"]]
    ensures system == "Darwin" ==> p.appSupport == home + ["Library", "Application Support"] && p.preferences == home + ["Library", "Preferences"]
    ensures system == "Windows" ==> p.appSupport == EnvOr(env, "APPDATA", [])
    ensures system != "Darwin" && system != "Windows" ==> p.appSupport == home + [".config"]
    ensures p.preferences == p.appSupport <==> system != "Darwin"
  {
    if system == "Darwin" then
      var support := home + ["Library", "Application Support"];
      var prefs := home + ["Library", "Preferences"];
      assert prefs[|home| + 1] != support[|home| + 1];
      Paths(home, [["Applications"], home + ["Applications"]], support, prefs)
    else if system == "Windows" then
      var support := EnvOr(env, "APPDATA", []);
      Paths(home, [EnvOr(env, "ProgramFiles", ["C:", "Program Files"]), EnvOr(env, "ProgramFiles(x86)", ["C:", "Program Files (x86)"])], support, support)
    else
      var support := home + [".config"];
      Paths(home, [["usr", "share", "applications"], home + [".local", "share", "applications"]], support, support)
  }

  const DevelopmentTerms: seq<string> := ["code", "studio", "intellij", "eclipse", "sublime", "vim"]
  const GamingTerms: seq<string> := ["steam", "epic", "battle.net", "game", "unity"]
  const CreativeTerms: seq<string> := ["photoshop", "illustrator", "premiere", "figma", "sketch"]
  const ProductivityTerms: seq<string> := ["office", "excel", "word", "powerpoint", "slack", "zoom"]

  const Categories: set<string> := {"Development", "Gaming", "Creative", "Productivity", "Other"}

  /** `any(term in s for term in terms)` */
  predicate AnyIn(terms: seq<string>, s: string) {
    exists t | t in terms :: Contains(s, t)
  }

  /** Lower-casing twice is lower-casing once. */
  lemma {:induction false} LowerIdempotent(s: string)
    ensures Lower(Lower(s)) == Lower(s)
  {
    if s != "" {
      LowerIdempotent(s[1..]);
      assert Lower(s)[1..] == Lower(s[1..]);
    }
  }

  lemma LowerUnityStudio()
    ensures Lower("Unity Studio") == "unity studio"
  {
    assert "Unity" + " Studio" == "Unity Studio" && "unity" + " studio" == "unity studio";
    assert Lower("Unity") == "unity" && Lower(" Studio") == " studio";
    LowerAppend("Unity", " Studio");
  }

  lemma UnityStudioTerms()
    ensures Contains("unity studio", "unity") && Contains("unity studio", "studio")
  {
    assert "unity studio" == "" + "unity" + " studio" == "unity " + "studio" + "";
    ContainsIn("", "unity", " studio");
    ContainsIn("unity ", "studio", "");
  }

  /** A string contains each of its middle parts. */
  lemma ContainsIn(a: string, t: string, b: string)
    ensures Contains(a + t + b, t)
  {
    assert (a + t + b)[|a|..|a| + |t|] == t;
    assert OccursAt(a + t + b, t, |a|);
  }

  /**
    The detector object: the system name and the locations fixed when it is
    built (app_detector.py:13-15).
   */
  class AppDetector {
    const system: string
    const home: Path
    const env: map<string, Path>
    const paths: Paths := InitPaths(system, home, env)

    constructor (system: string, home: Path, env: map<string, Path>)
      ensures this.system == system && this.home == home && this.env == env
    {
      this.system := system;
      this.home := home;
      this.env := env;
    }

    /**
      `get_category` (app_detector.py:43-63): the term lists are tried in a
      fixed order on the lower-cased name and the first list with a term
      occurring in it decides; the application path plays no part.
     */
    function GetCategory(appName: string, appPath: Path): (c: string)
      ensures c in Categories
      ensures c == "Development" <==> AnyIn(DevelopmentTerms, Lower(appName))
      ensures c == "Gaming" <==> !AnyIn(DevelopmentTerms, Lower(appName)) && AnyIn(GamingTerms, Lower(appName))
      ensures c == "Creative" <==>
        !AnyIn(DevelopmentTerms, Lower(appName)) && !AnyIn(GamingTerms, Lower(appName)) && AnyIn(CreativeTerms, Lower(appName))
      ensures c == "Productivity" <==>
        !AnyIn(DevelopmentTerms, Lower(appName)) && !AnyIn(GamingTerms, Lower(appName))
        && !AnyIn(CreativeTerms, Lower(appName)) && AnyIn(ProductivityTerms, Lower(appName))
      ensures c == "Other" <==>
        !AnyIn(DevelopmentTerms, Lower(appName)) && !AnyIn(GamingTerms, Lower(appName))
        && !AnyIn(CreativeTerms, Lower(appName)) && !AnyIn(ProductivityTerms, Lower(appName))
    {
      var lower := Lower(appName);
      if AnyIn(DevelopmentTerms, lower) then "Development"
      else if AnyIn(GamingTerms, lower) then "Gaming"
      else if AnyIn(CreativeTerms, lower) then "Creative"
      else if AnyIn(ProductivityTerms, lower) then "Productivity"
      else "Other"
    }

    /** The category depends on the lower-cased name only. */
    lemma CategoryOfLowered(appName: string, p: Path, q: Path)
      ensures GetCategory(Lower(appName), p) == GetCategory(appName, q)
    {
      LowerIdempotent(appName);
    }

    /** "Unity Studio" holds a Gaming term but a Development term wins. */
    lemma UnityStudioIsDevelopment(p: Path)
      ensures AnyIn(GamingTerms, Lower("Unity Studio"))
      ensures GetCategory("Unity Studio", p) == "Development"
    {
      UnityStudioTerms();
      LowerUnityStudio();
      assert "studio" in DevelopmentTerms && "unity" in GamingTerms;
    }

    /** `os.path.join(app_support, app_name)` */
    function SupportPath(appName: string): Path {
      paths.appSupport + [appName]
    }

    /** `os.path.join(preferences, f"{app_name}.plist")` */
    function PlistPath(appName: string): Path {
      paths.preferences + [appName + ".plist"]
    }

    /** `os.path.join(home, "Documents", "My Games", app_name)` */
    function SavesPath(appName: string): Path {
      paths.home + ["Documents", "My Games", appName]
    }

    /** The Application Support entry: the bytes of every file at any depth below the folder. */
    ghost function SupportEntry(fs: FS, appName: string): Setting {
      var p := SupportPath(appName);
      SupportSetting(p, SumSizes(fs, FilesBelow(fs, p)))
    }

    /** The three entries rank in the order `get_app_settings` checks them. */
    lemma EntryRanks(fs: FS, appName: string)
      ensures Rank(SupportEntry(fs, appName)) == 0 && Rank(PrefsEntry(fs, appName)) == 1 && Rank(SavesEntry(fs, appName)) == 2
    {
      SettingRanks(SupportPath(appName), SumSizes(fs, FilesBelow(fs, SupportPath(appName))));
      SettingRanks(SavesPath(appName), SumSizes(fs, FilesBelow(fs, SavesPath(appName))));
      assert "Preferences" != "Application Support";
    }

    /** The Preferences entry: the plist's own size. */
    function PrefsEntry(fs: FS, appName: string): Setting {
      var p := PlistPath(appName);
      Setting("preferences", p, "Application preferences and settings", Some("Preferences"), Some(StatSize(fs, p)))
    }

    /** The Game Saves entry: the bytes of every file at any depth below the folder. */
    ghost function SavesEntry(fs: FS, appName: string): Setting {
      var p := SavesPath(appName);
      SavesSetting(p, SumSizes(fs, FilesBelow(fs, p)))
    }

    /**
      `get_app_settings` (app_detector.py:65-106): Application Support when
      it exists, then Preferences when the plist exists on Darwin, then Game
      Saves when the folder exists on Windows, in that order and nothing else.
     */
    method GetAppSettings(fs: FS, appName: string) returns (r: seq<Setting>)
      ensures |r| <= 3
      ensures forall e | e in r :: Exists(fs, e.path)
      ensures SupportEntry(fs, appName) in r <==> Exists(fs, SupportPath(appName))
      ensures PrefsEntry(fs, appName) in r <==> system == "Darwin" && Exists(fs, PlistPath(appName))
      ensures SavesEntry(fs, appName) in r <==> system == "Windows" && Exists(fs, SavesPath(appName))
      ensures forall e | e in r :: e == SupportEntry(fs, appName) || e == PrefsEntry(fs, appName) || e == SavesEntry(fs, appName)
      ensures forall i, j | 0 <= i < j < |r| :: Rank(r[i]) < Rank(r[j])
    {
      ghost var a, b, c := SupportEntry(fs, appName), PrefsEntry(fs, appName), SavesEntry(fs, appName);
      ghost var ea, eb, ec := Exists(fs, SupportPath(appName)), system == "Darwin" && Exists(fs, PlistPath(appName)),
        system == "Windows" && Exists(fs, SavesPath(appName));
      r := [];
      var supportPath := SupportPath(appName);
      if Exists(fs, supportPath) {
        var size := DirSize(fs, supportPath);
        r := r + [SupportSetting(supportPath, size)];
      }
      ghost var r1 := r;
      assert r1 == if ea then [a] else [];
      if system == "Darwin" {
        var plistPath := PlistPath(appName);
        if Exists(fs, plistPath) {
          r := r + [PrefsEntry(fs, appName)];
        }
      }
      ghost var r2 := r;
      assert r2 == r1 + if eb then [b] else [];
      if system == "Windows" {
        var documents := SavesPath(appName);
        if Exists(fs, documents) {
          var size := DirSize(fs, documents);
          r := r + [SavesSetting(documents, size)];
        }
      }
      assert r == r2 + if ec then [c] else [];
      EntryRanks(fs, appName);
      PickedFacts(ea, eb, ec, a, b, c);
    }

    /**
      `get_vscode_settings` (app_detector.py:108-141): on Darwin the four
      Visual Studio Code components, in a fixed order and at fixed places,
      whether or not they exist; `None` elsewhere.
     */
    function GetVSCodeSettings(): (r: Option<App>)
      ensures r.Some? <==> system == "Darwin"
      ensures r.Some? ==>
        && r.value.name == "Visual Studio Code" && r.value.category == "Development" && r.value.kind == "Application"
        && r.value.path == ["Applications", "Visual Studio Code.app"]
        && |r.value.settings| == 4
        && Kinds(r.value.settings) == ["userData", "extensions", "extensionGlobalStorage", "workspaceStorage"]
        && r.value.settings[0].path == paths.appSupport + ["Code", "User"]
        && r.value.settings[1].path == paths.home + [".vscode", "extensions"]
        && r.value.settings[2].path == paths.appSupport + ["Code", "User", "globalStorage"]
        && r.value.settings[3].path == paths.appSupport + ["Code", "User", "workspaceStorage"]
        && r.value.settings[0].description == "User settings and configurations" && r.value.settings[1].description == "Installed extensions"
        && r.value.settings[2].description == "Extension global data" && r.value.settings[3].description == "Workspace-specific data"
        && (forall s | s in r.value.settings :: s.name.None? && s.size.None? && IsPrefix(paths.home, s.path))
    {
      if system == "Darwin" then
        var code := paths.appSupport + ["Code"];
        Some(App("Visual Studio Code", ["Applications", "Visual Studio Code.app"], "Development", "Application", [
          Setting("userData", code + ["User"], "User settings and configurations", None, None),
          Setting("extensions", paths.home + [".vscode", "extensions"], "Installed extensions", None, None),
          Setting("extensionGlobalStorage", code + ["User", "globalStorage"], "Extension global data", None, None),
          Setting("workspaceStorage", code + ["User", "workspaceStorage"], "Workspace-specific data", None, None)]))
      else None
    }

    /**
      The global-storage and workspace-storage components lie inside the
      user-data component, so a backup of all four holds their files twice;
      the extensions folder is apart from it.
     */
    lemma VSCodeComponentsNest()
      requires system == "Darwin"
      ensures var ss := GetVSCodeSettings().value.settings;
        && Below(ss[0].path, ss[2].path) && Below(ss[0].path, ss[3].path)
        && Apart(ss[0].path, ss[1].path)
    {
      var ss := GetVSCodeSettings().value.settings;
      var h := paths.home;
      assert ss[0].path == h + ["Library", "Application Support", "Code", "User"];
      assert ss[1].path == h + [".vscode", "extensions"];
      assert ss[2].path[..|ss[0].path|] == ss[0].path;
      assert ss[3].path[..|ss[0].path|] == ss[0].path;
      assert ss[0].path[|h|] != ss[1].path[|h|];
    }

    /**
      `get_chrome_settings` (app_detector.py:161-179): on Darwin, when the
      Chrome profile folder exists, one `profile` component at it; `None`
      otherwise.
     */
    function GetChromeSettings(fs: FS): (r: Option<App>)
      ensures r.Some? <==> system == "Darwin" && Exists(fs, paths.appSupport + ["Google", "Chrome"])
      ensures r.Some? ==>
        && r.value.name == "Google Chrome" && r.value.category == "Other" && r.value.kind == "Application"
        && r.value.path == ["Applications", "Google Chrome.app"]
        && |r.value.settings| == 1 && r.value.settings[0].kind == "profile"
        && r.value.settings[0].path == paths.appSupport + ["Google", "Chrome"]
        && r.value.settings[0].description == "User profile data" && r.value.settings[0].name.None? && r.value.settings[0].size.None?
    {
      var chrome := paths.appSupport + ["Google", "Chrome"];
      if system == "Darwin" && Exists(fs, chrome) then
        Some(App("Google Chrome", ["Applications", "Google Chrome.app"], "Other", "Application", [
          Setting("profile", chrome, "User profile data", None, None)]))
      else None
    }

    /**
      `detect_applications` (app_detector.py:143-159): Visual Studio Code,
      then Google Chrome, each only when its getter returns a record.
     */
    method DetectApplications(fs: FS) returns (apps: seq<App>)
      ensures system != "Darwin" ==> apps == []
      ensures system == "Darwin" ==>
        && apps != [] && apps[0] == GetVSCodeSettings().value
        && (|apps| == 2 <==> Exists(fs, paths.appSupport + ["Google", "Chrome"]))
        && |apps| <= 2
        && (|apps| == 2 ==> apps[1] == GetChromeSettings(fs).value)
    {
      apps := [];
      var vscode := GetVSCodeSettings();
      if vscode.Some? {
        apps := apps + [vscode.value];
      }
      var chrome := GetChromeSettings(fs);
      if chrome.Some? {
        apps := apps + [chrome.value];
      }
    }
  }

  /** Lower-casing works character by character. */
  lemma {:induction false} LowerAt(s: string)
    ensures forall i | 0 <= i < |s| :: Lower(s)[i] == LowerChar(s[i])
  {
    if s != "" {
      LowerAt(s[1..]);
    }
  }

  /** Lower-casing a concatenation lower-cases each part. */
  lemma {:induction false} LowerAppend(a: string, b: string)
    ensures Lower(a + b) == Lower(a) + Lower(b)
  {
    if a == "" {
      assert a + b == b;
    } else {
      assert (a + b)[0] == a[0] && (a + b)[1..] == a[1..] + b;
      LowerAppend(a[1..], b);
      assert [LowerChar(a[0])] + (Lower(a[1..]) + Lower(b)) == ([LowerChar(a[0])] + Lower(a[1..])) + Lower(b);
    }
  }

  /** The `type` of each setting, in order. */
  function Kinds(ss: seq<Setting>): (ks: seq<string>)
    ensures |ks| == |ss| && forall i | 0 <= i < |ss| :: ks[i] == ss[i].kind
  {
    if ss == [] then [] else [ss[0].kind] + Kinds(ss[1..])
  }

  /** An Application Support entry of the given size. */
  function SupportSetting(p: Path, size: nat): Setting {
    Setting("data", p, "Application data and configurations", Some("Application Support"), Some(size))
  }

  /** A Game Saves entry of the given size. */
  function SavesSetting(p: Path, size: nat): Setting {
    Setting("data", p, "Game save files and configurations", Some("Game Saves"), Some(size))
  }

  /** The ranks of the two sized entries. */
  lemma SettingRanks(p: Path, size: nat)
    ensures Rank(SupportSetting(p, size)) == 0 && Rank(SavesSetting(p, size)) == 2
  {
    assert "Game Saves" != "Application Support" && "Game Saves" != "Preferences";
  }

  /** The entries among `a`, `b` and `c` whose test held, in that order. */
  function Picked(ea: bool, eb: bool, ec: bool, a: Setting, b: Setting, c: Setting): seq<Setting> {
    (if ea then [a] else []) + (if eb then [b] else []) + (if ec then [c] else [])
  }

  /** Three entries of increasing rank are picked at most once each, in rank order. */
  lemma PickedFacts(ea: bool, eb: bool, ec: bool, a: Setting, b: Setting, c: Setting)
    requires Rank(a) == 0 && Rank(b) == 1 && Rank(c) == 2
    ensures var r := Picked(ea, eb, ec, a, b, c);
      && |r| <= 3
      && (a in r <==> ea) && (b in r <==> eb) && (c in r <==> ec)
      && (forall e | e in r :: e == a || e == b || e == c)
      && (forall i, j | 0 <= i < j < |r| :: Rank(r[i]) < Rank(r[j]))
  {
    var r := Picked(ea, eb, ec, a, b, c);
    if ea && eb && ec {
      assert r == [a, b, c];
    } else if ea && eb {
      assert r == [a, b];
    } else if ea && ec {
      assert r == [a, c];
    } else if eb && ec {
      assert r == [b, c];
    } else if ea {
      assert r == [a];
    } else if eb {
      assert r == [b];
    } else if ec {
      assert r == [c];
    } else {
      assert r == [];
    }
  }

  /** Position of an entry in the order `get_app_settings` checks the locations. */
  function Rank(s: Setting): nat {
    if s.name == Some("Application Support") then 0
    else if s.name == Some("Preferences") then 1
    else 2
  }
}
