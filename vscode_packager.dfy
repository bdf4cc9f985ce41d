/**
  The VS Code packager: the platform tables fixed when it is built, the
  search for the settings folder in a backup and the reading of its files,
  the settings files it writes into a packaged application, the setup
  scripts, the choice of package format and the package's file type.
  Downloading, unpacking and the external tools (`tar`, `hdiutil`) are not
  run: what they do is a parameter.
 */
module VSCodePackager {
  import opened Wrappers
  import opened Strings
  import opened FileSystem
  import opened SetupScriptText
  import opened Search
  import opened Sequences

  // ---------------------------------------------------------------------
  // JSON and text files
  // ---------------------------------------------------------------------

  /** A JSON value (numbers are whole numbers here). */
  datatype Json = JNull | JBool(b: bool) | JNumber(n: int) | JString(s: string) | JArray(items: seq<Json>) | JObject(fields: map<string, Json>)

  /**
    `json.dump` and `json.load` on file bytes: `dump` gives the bytes a
    text-mode file ends up holding on the running system, newline
    translation included; `load` gives `None` where parsing raises.
   */
  datatype JsonCodec = JsonCodec(dump: Json -> Bytes, load: Bytes -> Option<Json>)

  ghost predicate RoundTrips(c: JsonCodec) {
    forall j :: c.load(c.dump(j)) == Some(j)
  }

  /** The bytes written for a text, one per character (text encodings are not modelled). */
  function Encoded(s: string): (b: Bytes)
    ensures |b| == |s|
  {
    if s == "" then [] else [(s[0] as int % 256) as byte] + Encoded(s[1..])
  }

  /** The text read back from bytes, one character per byte. */
  function Text(b: Bytes): (s: string)
    ensures |s| == |b|
  {
    if b == [] then "" else [b[0] as int as char] + Text(b[1..])
  }

  /** `os.sep`: a backslash on Windows, a slash elsewhere. */
  function Separator(system: string): string {
    if system == "windows" then "\\" else "/"
  }

  /** A path as the absolute path string `os.walk` yields for it, its components joined by `sep`. */
  function Joined(p: Path, sep: string): string {
    if p == [] then "" else Joined(p[..|p| - 1], sep) + sep + p[|p| - 1]
  }

  // ---------------------------------------------------------------------
  // Construction (vscode_packager.py:26-71)
  // ---------------------------------------------------------------------

  const DarwinUrl: string := "https://code.visualstudio.com/sha/download?build=stable&os=darwin-universal"
  const DarwinArmUrl: string := "https://code.visualstudio.com/sha/download?build=stable&os=darwin-arm64"
  const WindowsUrl: string := "https://code.visualstudio.com/sha/download?build=stable&os=win32-x64-user"
  const LinuxUrl: string := "https://code.visualstudio.com/sha/download?build=stable&os=linux-x64"

  /** `VSCODE_DOWNLOAD_URLS` (vscode_packager.py:26-31). */
  const DownloadUrls: map<string, string> :=
    map["darwin" := DarwinUrl, "darwin-arm64" := DarwinArmUrl, "windows" := WindowsUrl, "linux" := LinuxUrl]

  /** The fields `__init__` sets; the packager never changes them afterwards. */
  datatype Packager = Packager(
    system: string, arch: string, downloadUrl: string,
    tempDir: Path, cleanup: bool,
    appName: Name, template: string)

  predicate Supported(system: string) {
    system == "darwin" || system == "windows" || system == "linux"
  }

  /**
    `__init__` (vscode_packager.py:33-71): `platformSystem` and `machine`
    are what `platform` reports, `tempDir` the optional argument and
    `mkdtemp` the folder `tempfile.mkdtemp` would create. An unsupported
    system raises `ValueError`.
   */
  function Init(platformSystem: string, machine: string, tempDir: Option<Path>, mkdtemp: Path): (r: Result<Packager>)
    ensures r.Ok? <==> Supported(Lower(platformSystem))
    ensures r.Ok? ==> r.value.system == Lower(platformSystem) && r.value.arch == Lower(machine)
    ensures r.Ok? && r.value.system == "darwin" && Contains(r.value.arch, "arm") ==> r.value.downloadUrl == DarwinArmUrl
    ensures r.Ok? && !(r.value.system == "darwin" && Contains(r.value.arch, "arm")) ==>
      r.value.downloadUrl == DownloadUrls[r.value.system]
    ensures r.Ok? ==> (r.value.cleanup <==> tempDir.None? || tempDir.value == [])
    ensures r.Ok? ==> r.value.tempDir == if r.value.cleanup then mkdtemp else tempDir.value
    ensures r.Ok? && r.value.system == "darwin" ==>
      r.value.appName == "Visual Studio Code.app" && r.value.template == "Library/Application Support/Code/User"
    ensures r.Ok? && r.value.system == "windows" ==>
      r.value.appName == "VSCode" && r.value.template == "AppData/Roaming/Code/User"
    ensures r.Ok? && r.value.system == "linux" ==>
      r.value.appName == "code" && r.value.template == ".config/Code/User"
  {
    var system := Lower(platformSystem);
    var arch := Lower(machine);
    var url: Option<string> :=
      if system == "darwin" && Contains(arch, "arm") then Some(DownloadUrls["darwin-arm64"])
      else if system in DownloadUrls then Some(DownloadUrls[system])
      else None;
    if url.None? then Err("Unsupported platform: " + system)
    else
      var dir := if tempDir.Some? && tempDir.value != [] then tempDir.value else mkdtemp;
      var cleanup := !(tempDir.Some? && tempDir.value != []);
      if system == "darwin" then
        Ok(Packager(system, arch, url.value, dir, cleanup, "Visual Studio Code.app", "Library/Application Support/Code/User"))
      else if system == "windows" then
        Ok(Packager(system, arch, url.value, dir, cleanup, "VSCode", "AppData/Roaming/Code/User"))
      else if system == "linux" then
        Ok(Packager(system, arch, url.value, dir, cleanup, "code", ".config/Code/User"))
      else Err("Unsupported platform: " + system)
  }

  /** On Darwin the machine string alone decides between the universal and the arm64 build. */
  lemma DarwinUrlByMachine(machine: string, tempDir: Option<Path>, mkdtemp: Path)
    ensures Init("Darwin", machine, tempDir, mkdtemp).Ok?
    ensures Init("Darwin", machine, tempDir, mkdtemp).value.downloadUrl ==
      if Contains(Lower(machine), "arm") then DarwinArmUrl else DarwinUrl
  {
    assert Lower("Darwin") == "darwin";
  }

  /** The file extension `download_vscode` uses (vscode_packager.py:91-96). */
  function DownloadExtension(system: string): (e: string)
    ensures e == "zip" <==> system == "darwin"
    ensures e == "exe" <==> system == "windows"
    ensures e == "tar.gz" <==> system != "darwin" && system != "windows"
  {
    if system == "darwin" then "zip" else if system == "windows" then "exe" else "tar.gz"
  }

  /** Where `download_vscode` saves the download (vscode_packager.py:98). */
  function DownloadPath(p: Packager): (d: Path)
    ensures Dirname(d) == p.tempDir && Basename(d) == "vscode." + DownloadExtension(p.system)
  {
    p.tempDir + ["vscode." + DownloadExtension(p.system)]
  }

  // ---------------------------------------------------------------------
  // Settings search and reading (vscode_packager.py:150-241)
  // ---------------------------------------------------------------------

  /** `walk` lists exactly the directories at or below `root`: what one `os.walk(root)` visits, in its order. */
  ghost predicate WalkOf(fs: FS, root: Path, walk: seq<Path>) {
    forall d :: d in walk <==> IsDir(fs, root) && IsDir(fs, d) && IsPrefix(root, d)
  }

  /**
    The test a walked directory must pass to be the settings folder
    (vscode_packager.py:180, 185); `sep` is the separator of the walk's
    root strings, which the template (always written with `/`) is searched in.
   */
  predicate SettingsDirMatch(fs: FS, d: Path, template: string, sep: string) {
    var files := FileNames(fs, d);
    ("settings.json" in files && "keybindings.json" in files)
    || (Contains(Joined(d, sep), template) && "settings.json" in files)
  }

  /** The settings-folder test as a predicate on walked directories. */
  function IsSettingsDir(fs: FS, template: string, sep: string): Path -> bool {
    d => SettingsDirMatch(fs, d, template, sep)
  }

  /** Whether a walked directory holds an `extensions.txt` (vscode_packager.py:227). */
  function HasTxt(fs: FS): Path -> bool {
    d => "extensions.txt" in FileNames(fs, d)
  }

  /** A name in the `files` of a walk step is a regular file in that directory. */
  lemma FileNamesAt(fs: FS, d: Path, n: Name)
    ensures n in FileNames(fs, d) <==> IsFile(fs, d + [n])
  {
    var q := d + [n];
    assert q[..|d|] == d && q[|d|] == n;
    if n in FileNames(fs, d) {
      var k :| k in fs && fs[k].File? && |k| == |d| + 1 && k[..|d|] == d && k[|d|] == n;
      assert k == k[..|d|] + [k[|d|]];
    }
  }

  /** `json.load` of `path` when it exists, `default` otherwise; opening a directory or bad JSON raises. */
  function ReadJson(fs: FS, path: Path, default: Json, json: JsonCodec): (r: Result<Json>)
    ensures !Exists(fs, path) ==> r == Ok(default)
    ensures Exists(fs, path) && r.Ok? ==> IsFile(fs, path) && json.load(fs[path].data) == Some(r.value)
    ensures r.Err? <==> Exists(fs, path) && (!IsFile(fs, path) || json.load(fs[path].data).None?)
  {
    if !Exists(fs, path) then Ok(default)
    else if !IsFile(fs, path) then Err("Is a directory")
    else match json.load(fs[path].data)
      case None => Err("invalid JSON")
      case Some(j) => Ok(j)
  }

  /** The snippet files: the entries of the snippets folder whose name ends in ".json". */
  function SnippetNames(fs: FS, sdir: Path): set<Name> {
    set n | n in Children(fs, sdir) && EndsWith(n, ".json")
  }

  /**
    The snippets (vscode_packager.py:211-216): each ".json" entry of the
    snippets folder under its name, with its text as text mode reads it
    (universal newlines); listing a file or opening a folder raises.
   */
  function ReadSnippets(fs: FS, sdir: Path): (r: Result<map<Name, string>>)
    ensures !Exists(fs, sdir) ==> r == Ok(map[])
    ensures r.Ok? ==> forall n | n in r.value :: EndsWith(n, ".json") && IsFile(fs, sdir + [n]) && r.value[n] == Universal(Text(fs[sdir + [n]].data))
    ensures r.Ok? && Exists(fs, sdir) ==> r.value.Keys == SnippetNames(fs, sdir)
    ensures r.Err? <==> Exists(fs, sdir) && (IsFile(fs, sdir) || exists n | n in SnippetNames(fs, sdir) :: !IsFile(fs, sdir + [n]))
  {
    if !Exists(fs, sdir) then Ok(map[])
    else if IsFile(fs, sdir) then Err("Not a directory")
    else if exists n | n in SnippetNames(fs, sdir) :: !IsFile(fs, sdir + [n]) then Err("Is a directory")
    else Ok(map n | n in SnippetNames(fs, sdir) :: Universal(Text(fs[sdir + [n]].data)))
  }

  /** The JSON strings of a list, `None` when one item is not a string. */
  function StringItems(items: seq<Json>): (r: Option<seq<string>>)
    ensures r.None? <==> exists i | 0 <= i < |items| :: !items[i].JString?
    ensures r.Some? ==> |r.value| == |items| && forall i | 0 <= i < |items| :: items[i] == JString(r.value[i])
  {
    if items == [] then Some([])
    else if !items[0].JString? then None
    else match StringItems(items[1..])
      case None => None
      case Some(rest) => Some([items[0].s] + rest)
  }

  /**
    `extensions_data.get("extensions", [])` (vscode_packager.py:222-223);
    `.get` on a non-object raises. The model keeps a list of strings only.
   */
  function ExtensionsOf(doc: Json): (r: Result<seq<string>>)
    ensures doc.JObject? && "extensions" !in doc.fields ==> r == Ok([])
    ensures !doc.JObject? ==> r.Err?
  {
    if !doc.JObject? then Err("'list' object has no attribute 'get'")
    else if "extensions" !in doc.fields then Ok([])
    else
      var v := doc.fields["extensions"];
      if !v.JArray? then Err("the extension list is not a list")
      else match StringItems(v.items)
        case None => Err("an extension is not a string")
        case Some(ids) => Ok(ids)
  }

  /** `[line.strip() for line in f if line.strip()]` (vscode_packager.py:229). */
  function NonBlank(lines: seq<string>): (r: seq<string>)
    ensures |r| <= |lines|
    ensures forall x | x in r :: x != "" && exists l | l in lines :: x == Strip(l)
    ensures forall l | l in lines && Strip(l) != "" :: Strip(l) in r
  {
    if lines == [] then []
    else
      var rest := NonBlank(lines[1..]);
      assert forall l | l in lines[1..] :: l in lines;
      assert forall l | l in lines :: l == lines[0] || l in lines[1..];
      (if Strip(lines[0]) != "" then [Strip(lines[0])] else []) + rest
  }

  /**
    The extension list (vscode_packager.py:218-230): from `extensions.json`
    in the settings folder when it exists, otherwise from the first walked
    `extensions.txt` (`txtDir` is its folder), otherwise empty.
   */
  function ReadExtensions(fs: FS, dir: Path, txtDir: Option<Path>, json: JsonCodec): (r: Result<seq<string>>)
    requires txtDir.Some? ==> IsFile(fs, txtDir.value + ["extensions.txt"])
    ensures !Exists(fs, dir + ["extensions.json"]) && txtDir.None? ==> r == Ok([])
    ensures !Exists(fs, dir + ["extensions.json"]) && txtDir.Some? ==>
      r == Ok(NonBlank(Lines(Universal(Text(fs[txtDir.value + ["extensions.txt"]].data)))))
  {
    var ef := dir + ["extensions.json"];
    if Exists(fs, ef) then
      if !IsFile(fs, ef) then Err("Is a directory")
      else match json.load(fs[ef].data)
        case None => Err("invalid JSON")
        case Some(doc) => ExtensionsOf(doc)
    else if txtDir.None? then Ok([])
    else Ok(NonBlank(Lines(Universal(Text(fs[txtDir.value + ["extensions.txt"]].data)))))
  }

  /** The dict `extract_settings_from_backup` returns. */
  datatype SettingsData = SettingsData(settings: Json, keybindings: Json, snippets: map<Name, string>, extensions: seq<string>, settingsDir: Path)

  /** The files of a found settings folder, read in the source's order (vscode_packager.py:192-241). */
  function ReadSettingsDir(fs: FS, dir: Path, txtDir: Option<Path>, json: JsonCodec): (r: Result<SettingsData>)
    requires txtDir.Some? ==> IsFile(fs, txtDir.value + ["extensions.txt"])
    ensures r.Ok? ==> r.value.settingsDir == dir
    ensures r.Ok? ==> Ok(r.value.settings) == ReadJson(fs, dir + ["settings.json"], JObject(map[]), json)
    ensures r.Ok? ==> Ok(r.value.keybindings) == ReadJson(fs, dir + ["keybindings.json"], JArray([]), json)
    ensures r.Ok? ==> Ok(r.value.snippets) == ReadSnippets(fs, dir + ["snippets"])
    ensures r.Ok? ==> Ok(r.value.extensions) == ReadExtensions(fs, dir, txtDir, json)
    ensures r.Err? <==>
      || ReadJson(fs, dir + ["settings.json"], JObject(map[]), json).Err?
      || ReadJson(fs, dir + ["keybindings.json"], JArray([]), json).Err?
      || ReadSnippets(fs, dir + ["snippets"]).Err?
      || ReadExtensions(fs, dir, txtDir, json).Err?
  {
    match ReadJson(fs, dir + ["settings.json"], JObject(map[]), json)
    case Err(e) => Err(e)
    case Ok(settings) =>
      match ReadJson(fs, dir + ["keybindings.json"], JArray([]), json)
      case Err(e) => Err(e)
      case Ok(keybindings) =>
        match ReadSnippets(fs, dir + ["snippets"])
        case Err(e) => Err(e)
        case Ok(snippets) =>
          match ReadExtensions(fs, dir, txtDir, json)
          case Err(e) => Err(e)
          case Ok(extensions) => Ok(SettingsData(settings, keybindings, snippets, extensions, dir))
  }

  /** The folder of the walk's first `extensions.txt`, searched only when `extensions.json` is missing. */
  function TxtSource(fs: FS, dir: Path, walk: seq<Path>): (t: Option<Path>)
    ensures t.Some? ==> IsFile(fs, t.value + ["extensions.txt"])
  {
    if Exists(fs, dir + ["extensions.json"]) then None
    else
      var t := First(walk, HasTxt(fs));
      if t.Some? then FileNamesAt(fs, t.value, "extensions.txt"); t else t
  }

  /** What `extract_settings_from_backup` returns for a backup folder walked in the order `walk`. */
  function Extracted(p: Packager, fs: FS, walk: seq<Path>, json: JsonCodec): Result<SettingsData> {
    match First(walk, IsSettingsDir(fs, p.template, Separator(p.system)))
    case None => Err("Could not find VS Code settings in the backup")
    case Some(dir) => ReadSettingsDir(fs, dir, TxtSource(fs, dir, walk), json)
  }

  /**
    `extract_settings_from_backup` (vscode_packager.py:150-241) for a
    backup that is a folder; `walk` is the order `os.walk` visits it in.
   */
  method ExtractSettingsFromBackup(p: Packager, fs: FS, backupDir: Path, walk: seq<Path>, json: JsonCodec)
    returns (r: Result<SettingsData>)
    requires WalkOf(fs, backupDir, walk)
    ensures r == Extracted(p, fs, walk, json)
  {
    var found := FirstMatch(walk, IsSettingsDir(fs, p.template, Separator(p.system)));
    if found.None? {
      return Err("Could not find VS Code settings in the backup");
    }
    var dir := found.value;
    var txtDir: Option<Path> := None;
    if !Exists(fs, dir + ["extensions.json"]) {
      txtDir := FirstMatch(walk, HasTxt(fs));
    }
    assert txtDir == TxtSource(fs, dir, walk);
    r := ReadSettingsDir(fs, dir, txtDir, json);
  }

  /**
    The search fails exactly when no folder of the backup passes the test;
    otherwise the settings come from the first one the walk reaches.
   */
  lemma ExtractedFolder(p: Packager, fs: FS, backupDir: Path, walk: seq<Path>, json: JsonCodec)
    requires WalkOf(fs, backupDir, walk)
    ensures (forall d | IsDir(fs, d) && IsPrefix(backupDir, d) :: !SettingsDirMatch(fs, d, p.template, Separator(p.system))) ==>
      Extracted(p, fs, walk, json) == Err("Could not find VS Code settings in the backup")
    ensures Extracted(p, fs, walk, json).Ok? ==>
      var d := Extracted(p, fs, walk, json).value.settingsDir;
      && IsDir(fs, d) && IsPrefix(backupDir, d) && SettingsDirMatch(fs, d, p.template, Separator(p.system))
      && exists i | 0 <= i < |walk| :: walk[i] == d && forall j | 0 <= j < i :: !SettingsDirMatch(fs, walk[j], p.template, Separator(p.system))
  {
    var m := IsSettingsDir(fs, p.template, Separator(p.system));
    if First(walk, m).Some? {
      FirstIsEarliest(walk, m);
    }
  }

  /**
    Where the extension list comes from: `extensions.json` of the settings
    folder when it exists, otherwise the stripped non-blank lines of the
    first `extensions.txt` the walk reaches, otherwise nothing.
   */
  lemma ExtensionsSource(fs: FS, dir: Path, walk: seq<Path>, json: JsonCodec)
    requires ReadExtensions(fs, dir, TxtSource(fs, dir, walk), json).Ok?
    ensures var x := ReadExtensions(fs, dir, TxtSource(fs, dir, walk), json).value;
      var ef := dir + ["extensions.json"];
      && (Exists(fs, ef) ==> IsFile(fs, ef) && exists doc :: json.load(fs[ef].data) == Some(doc) && ExtensionsOf(doc) == Ok(x))
      && (!Exists(fs, ef) && (forall i | 0 <= i < |walk| :: !IsFile(fs, walk[i] + ["extensions.txt"])) ==> x == [])
      && (!Exists(fs, ef) && (exists i | 0 <= i < |walk| :: IsFile(fs, walk[i] + ["extensions.txt"])) ==>
            exists i | 0 <= i < |walk| ::
              && IsFile(fs, walk[i] + ["extensions.txt"])
              && (forall j | 0 <= j < i :: !IsFile(fs, walk[j] + ["extensions.txt"]))
              && x == NonBlank(Lines(Universal(Text(fs[walk[i] + ["extensions.txt"]].data)))))
  {
    var ef := dir + ["extensions.json"];
    var t := HasTxt(fs);
    forall i | 0 <= i < |walk|
      ensures t(walk[i]) <==> IsFile(fs, walk[i] + ["extensions.txt"])
    {
      FileNamesAt(fs, walk[i], "extensions.txt");
    }
    if Exists(fs, ef) {
      var doc := json.load(fs[ef].data).value;
      assert ExtensionsOf(doc) == ReadExtensions(fs, dir, TxtSource(fs, dir, walk), json);
    } else if First(walk, t).Some? {
      FirstIsEarliest(walk, t);
    }
  }

  /** A path string joined without slashes holds none. */
  lemma {:induction false} JoinedNoSlash(p: Path, sep: string)
    requires '/' !in sep && forall i | 0 <= i < |p| :: '/' !in p[i]
    ensures '/' !in Joined(p, sep)
  {
    if p != [] {
      JoinedNoSlash(p[..|p| - 1], sep);
    }
  }

  /**
    On Windows the walk's root strings are joined with backslashes, so the
    template test (vscode_packager.py:185), whose template is written with
    slashes, never passes for names without slashes: a folder is the
    settings folder exactly when it holds both settings.json and
    keybindings.json.
   */
  lemma WindowsNeedsBothFiles(fs: FS, d: Path, template: string)
    requires '/' in template && forall i | 0 <= i < |d| :: '/' !in d[i]
    ensures SettingsDirMatch(fs, d, template, Separator("windows")) <==>
      "settings.json" in FileNames(fs, d) && "keybindings.json" in FileNames(fs, d)
  {
    JoinedNoSlash(d, Separator("windows"));
    NotContains(Joined(d, Separator("windows")), template, '/');
  }

  /** The extension list of an extraction, as `ExtensionsSource` describes it for the folder found. */
  lemma ExtractedExtensions(p: Packager, fs: FS, walk: seq<Path>, json: JsonCodec)
    requires Extracted(p, fs, walk, json).Ok?
    ensures var r := Extracted(p, fs, walk, json).value;
      && ReadExtensions(fs, r.settingsDir, TxtSource(fs, r.settingsDir, walk), json) == Ok(r.extensions)
      && (!Exists(fs, r.settingsDir + ["extensions.json"]) && (forall i | 0 <= i < |walk| :: !IsFile(fs, walk[i] + ["extensions.txt"])) ==>
            r.extensions == [])
  {
    var r := Extracted(p, fs, walk, json).value;
    ExtensionsSource(fs, r.settingsDir, walk, json);
  }

  // ---------------------------------------------------------------------
  // Settings written into the packaged application (vscode_packager.py:243-389)
  // ---------------------------------------------------------------------

  /** Where `merge_settings_into_vscode` puts the user settings (vscode_packager.py:257, 261-272, 343-352, 359-364). */
  function MergedSettingsDir(p: Packager): (d: Path)
    ensures Below(p.tempDir + ["vscode_packaged", p.appName], d) && Basename(d) == "User"
  {
    var app := p.tempDir + ["vscode_packaged", p.appName];
    if p.system == "darwin" then app + ["Contents", "Resources", "app", "user-data-dir", "User"]
    else if p.system == "windows" then app + ["data", "User"]
    else app + ["data", "user-data", "User"]
  }

  /** `{"extensions": extensions}` (vscode_packager.py:386). */
  function ExtensionsDoc(exts: seq<string>): (j: Json)
    ensures j.JObject? && j.fields.Keys == {"extensions"} && j.fields["extensions"].JArray?
    ensures |j.fields["extensions"].items| == |exts|
  {
    JObject(map["extensions" := JArray(seq(|exts|, i requires 0 <= i < |exts| => JString(exts[i])))])
  }

  /**
    The bytes a text-mode write (`open(path, 'w')`) leaves on `system`: on
    Windows each `\n` is written as `\r\n`.
   */
  function Written(system: string, s: string): Bytes {
    Encoded(if system == "windows" then Crlf(s) else s)
  }

  /** Bytes written one per character decode back to the text, when every character fits in a byte. */
  lemma {:induction false} TextOfEncoded(s: string)
    requires forall i | 0 <= i < |s| :: s[i] as int < 256
    ensures Text(Encoded(s)) == s
  {
    if s != "" {
      assert forall i | 0 <= i < |s[1..]| :: s[1..][i] == s[i + 1];
      TextOfEncoded(s[1..]);
      assert Encoded(s)[1..] == Encoded(s[1..]);
    }
  }

  /**
    What a text-mode write leaves, a text-mode read gives back, on every
    system, for a text without carriage returns whose characters fit in a
    byte.
   */
  lemma WrittenReadsBack(system: string, s: string)
    requires '\r' !in s && forall i | 0 <= i < |s| :: s[i] as int < 256
    ensures Universal(Text(Written(system, s))) == s
  {
    var t := if system == "windows" then Crlf(s) else s;
    assert forall i | 0 <= i < |t| :: t[i] as int < 256;
    TextOfEncoded(t);
    if system == "windows" {
      CrlfReadsBack(s);
    } else {
      UniversalNoReturn(s);
    }
  }

  /** The snippet files written into `sdir` on `system`, each under its own name. */
  function SnippetFiles(system: string, sdir: Path, snippets: map<Name, string>): FS {
    map k | k in (set n | n in snippets :: sdir + [n]) && |k| == |sdir| + 1 && k[|sdir|] in snippets ::
      File(Written(system, snippets[k[|sdir|]]))
  }

  /**
    The files `merge_settings_into_vscode` writes into the settings folder
    `dir` (vscode_packager.py:371-386), after creating it and its snippets
    folder.
   */
  function WriteSettings(system: string, fs: FS, dir: Path, data: SettingsData, json: JsonCodec): FS {
    var sdir := dir + ["snippets"];
    var made := MakeDirs(fs, sdir);
    var written := made[dir + ["settings.json"] := File(json.dump(data.settings))]
                       [dir + ["keybindings.json"] := File(json.dump(data.keybindings))];
    (written + SnippetFiles(system, sdir, data.snippets))[dir + ["extensions.json"] := File(json.dump(ExtensionsDoc(data.extensions)))]
  }

  /** `q` is the file of one of the snippets `names` in the folder `sdir`. */
  predicate SnippetPath(sdir: Path, names: set<Name>, q: Path) {
    |q| == |sdir| + 1 && q[..|sdir|] == sdir && q[|sdir|] in names
  }

  /** The snippet file paths are exactly `sdir` extended by one snippet name. */
  lemma SnippetFilesAt(system: string, sdir: Path, snippets: map<Name, string>, q: Path)
    ensures q in SnippetFiles(system, sdir, snippets) <==> SnippetPath(sdir, snippets.Keys, q)
    ensures q in SnippetFiles(system, sdir, snippets) ==> SnippetFiles(system, sdir, snippets)[q] == File(Written(system, snippets[q[|sdir|]]))
  {
    if SnippetPath(sdir, snippets.Keys, q) {
      assert q == sdir + [q[|sdir|]];
    }
  }

  /** The snippet loop of `merge_settings_into_vscode` (vscode_packager.py:380-382): one file per snippet, under its name. */
  method WriteSnippets(disk: Disk, system: string, sdir: Path, snippets: map<Name, string>)
    modifies disk
    ensures disk.files == old(disk.files) + SnippetFiles(system, sdir, snippets)
  {
    ghost var written := disk.files;
    var pending := snippets.Keys;
    while pending != {}
      invariant pending <= snippets.Keys
      invariant forall q :: q in disk.files <==> q in written || SnippetPath(sdir, snippets.Keys - pending, q)
      invariant forall q | q in disk.files ::
        disk.files[q] == if SnippetPath(sdir, snippets.Keys - pending, q) then File(Written(system, snippets[q[|sdir|]])) else written[q]
      decreases pending
    {
      var n :| n in pending;
      assert (sdir + [n])[..|sdir|] == sdir;
      disk.files := disk.files[sdir + [n] := File(Written(system, snippets[n]))];
      pending := pending - {n};
      forall q | SnippetPath(sdir, snippets.Keys - pending, q) && q[|sdir|] == n
        ensures q == sdir + [n]
      {
        assert q == q[..|sdir|] + [q[|sdir|]];
      }
    }
    forall q
      ensures q in disk.files <==> q in written + SnippetFiles(system, sdir, snippets)
      ensures q in disk.files ==> disk.files[q] == (written + SnippetFiles(system, sdir, snippets))[q]
    {
      SnippetFilesAt(system, sdir, snippets, q);
    }
    assert disk.files == written + SnippetFiles(system, sdir, snippets);
  }

  /**
    `merge_settings_into_vscode` (vscode_packager.py:243-389): creates the
    settings and snippets folders inside the packaged application, then
    writes settings.json, keybindings.json, each snippet file under its own
    name and extensions.json, and returns the packaged application's path.
   */
  method MergeSettingsIntoVSCode(disk: Disk, p: Packager, data: SettingsData, json: JsonCodec) returns (packagedApp: Path)
    modifies disk
    ensures packagedApp == p.tempDir + ["vscode_packaged", p.appName]
    ensures Below(packagedApp, MergedSettingsDir(p))
    ensures disk.files == WriteSettings(p.system, old(disk.files), MergedSettingsDir(p), data, json)
  {
    packagedApp := p.tempDir + ["vscode_packaged", p.appName];
    var dir := MergedSettingsDir(p);
    var sdir := dir + ["snippets"];
    var made := MakeDirs(disk.files, sdir);
    disk.files := made[dir + ["settings.json"] := File(json.dump(data.settings))]
                      [dir + ["keybindings.json"] := File(json.dump(data.keybindings))];
    WriteSnippets(disk, p.system, sdir, data.snippets);
    disk.files := disk.files[dir + ["extensions.json"] := File(json.dump(ExtensionsDoc(data.extensions)))];
  }

  /** The list written as `{"extensions": list}` is the list read back. */
  lemma ExtensionsDocRoundTrip(exts: seq<string>)
    ensures ExtensionsOf(ExtensionsDoc(exts)) == Ok(exts)
  {
    var items := ExtensionsDoc(exts).fields["extensions"].items;
    var ids := StringItems(items);
    assert forall i | 0 <= i < |items| :: items[i] == JString(exts[i]);
    assert ids.Some?;
    assert ids.value == exts;
  }

  /** The three JSON files of a merged settings folder hold what was dumped into them. */
  lemma WrittenFiles(system: string, fs: FS, dir: Path, data: SettingsData, json: JsonCodec)
    ensures var w := WriteSettings(system, fs, dir, data, json);
      && IsFile(w, dir + ["settings.json"]) && w[dir + ["settings.json"]].data == json.dump(data.settings)
      && IsFile(w, dir + ["keybindings.json"]) && w[dir + ["keybindings.json"]].data == json.dump(data.keybindings)
      && IsFile(w, dir + ["extensions.json"]) && w[dir + ["extensions.json"]].data == json.dump(ExtensionsDoc(data.extensions))
  {
    var sdir := dir + ["snippets"];
    var sp, kp, ep := dir + ["settings.json"], dir + ["keybindings.json"], dir + ["extensions.json"];
    assert sp[|dir|] != kp[|dir|] && sp[|dir|] != ep[|dir|] && kp[|dir|] != ep[|dir|];
    var written := MakeDirs(fs, sdir)[sp := File(json.dump(data.settings))][kp := File(json.dump(data.keybindings))];
    var snippets := SnippetFiles(system, sdir, data.snippets);
    SnippetFilesDepth(system, sdir, data.snippets, sp);
    SnippetFilesDepth(system, sdir, data.snippets, kp);
    var e := File(json.dump(ExtensionsDoc(data.extensions)));
    MergedLookup(written, snippets, sp, ep, e);
    MergedLookup(written, snippets, kp, ep, e);
  }

  /** A file written before the snippets and not overwritten afterwards keeps its content. */
  lemma MergedLookup(written: FS, snippets: FS, k: Path, last: Path, e: Entry)
    requires k in written && k !in snippets && k != last
    ensures k in (written + snippets)[last := e] && (written + snippets)[last := e][k] == written[k]
  {
  }

  /** The snippet files lie one level deeper than the settings files. */
  lemma SnippetFilesDepth(system: string, sdir: Path, snippets: map<Name, string>, q: Path)
    requires |q| == |sdir|
    ensures q !in SnippetFiles(system, sdir, snippets)
  {
  }

  /**
    Merging then extracting (vscode_packager.py:371-386 against 180-223):
    the merged folder passes the settings-folder test, and its settings,
    keybindings and extension list read back as written.
   */
  lemma MergeThenRead(system: string, fs: FS, dir: Path, data: SettingsData, json: JsonCodec, template: string, sep: string, txtDir: Option<Path>)
    requires RoundTrips(json)
    requires var w := WriteSettings(system, fs, dir, data, json); txtDir.Some? ==> IsFile(w, txtDir.value + ["extensions.txt"])
    ensures var w := WriteSettings(system, fs, dir, data, json);
      && SettingsDirMatch(w, dir, template, sep)
      && ReadJson(w, dir + ["settings.json"], JObject(map[]), json) == Ok(data.settings)
      && ReadJson(w, dir + ["keybindings.json"], JArray([]), json) == Ok(data.keybindings)
      && ReadExtensions(w, dir, txtDir, json) == Ok(data.extensions)
  {
    var w := WriteSettings(system, fs, dir, data, json);
    WrittenFiles(system, fs, dir, data, json);
    assert json.load(json.dump(data.settings)) == Some(data.settings);
    assert json.load(json.dump(data.keybindings)) == Some(data.keybindings);
    assert json.load(json.dump(ExtensionsDoc(data.extensions))) == Some(ExtensionsDoc(data.extensions));
    FileNamesAt(w, dir, "settings.json");
    FileNamesAt(w, dir, "keybindings.json");
    ExtensionsDocRoundTrip(data.extensions);
  }

  // ---------------------------------------------------------------------
  // Setup scripts (vscode_packager.py:391-621)
  // ---------------------------------------------------------------------

  const InstallPrefix: string := "code --install-extension \""
  const InstallMiddle: string := "\" || echo \"Failed to install "
  const InstallEnd: string := "\"\n"

  /** The install line for one extension (vscode_packager.py:473, 531, 613). */
  function InstallLine(e: string): (l: string)
    ensures |l| == |InstallPrefix| + |InstallMiddle| + |InstallEnd| + 2 * |e|
    ensures l[|l| - 1] == '\n'
  {
    InstallPrefix + e + InstallMiddle + e + InstallEnd
  }

  /** The install lines for a list of extensions, in its order. */
  function InstallLines(exts: seq<string>): string {
    if exts == [] then "" else InstallLines(exts[..|exts| - 1]) + InstallLine(exts[|exts| - 1])
  }

  /** The extension an install line installs, recovered from the line alone. */
  function InstalledBy(line: string): string {
    var n := |line| - |InstallPrefix| - |InstallMiddle| - |InstallEnd|;
    if n < 0 then "" else line[|InstallPrefix|..|InstallPrefix| + n / 2]
  }

  lemma InstalledByLine(e: string)
    ensures InstalledBy(InstallLine(e)) == e
  {
    var l := InstallLine(e);
    assert l[|InstallPrefix|..|InstallPrefix| + |e|] == e;
  }

  /** An install line holds its only newline at its end when the extension has none. */
  lemma InstallLineNewlines(e: string)
    requires SingleLine(e)
    ensures var l := InstallLine(e); forall k | 0 <= k < |l| - 1 :: l[k] != '\n'
  {
    var l := InstallLine(e);
    assert forall k | 0 <= k < |InstallPrefix| :: InstallPrefix[k] != '\n';
    assert forall k | 0 <= k < |InstallMiddle| :: InstallMiddle[k] != '\n';
    assert InstallEnd[0] != '\n';
    forall k | 0 <= k < |l| - 1
      ensures l[k] != '\n'
    {
      var a, b := |InstallPrefix|, |InstallPrefix| + |e|;
      var c := b + |InstallMiddle|;
      if k < a {
        assert l[k] == InstallPrefix[k];
      } else if k < b {
        assert l[k] == e[k - a];
      } else if k < c {
        assert l[k] == InstallMiddle[k - b];
      } else if k < c + |e| {
        assert l[k] == e[k - c];
      } else {
        assert l[k] == InstallEnd[k - c - |e|];
      }
    }
  }

  /** A text whose only newline ends it is one line. */
  lemma {:induction false} OneLine(s: string, rest: string)
    requires s != "" && s[|s| - 1] == '\n' && forall k | 0 <= k < |s| - 1 :: s[k] != '\n'
    ensures LineLength(s + rest) == |s|
    decreases |s|
  {
    if |s| > 1 {
      ConcatTail(s, rest);
      OneLine(s[1..], rest);
    }
  }

  /** The first line of a text that has a newline lies within that text. */
  lemma {:induction false} FirstLineWithin(a: string, b: string)
    requires exists k | 0 <= k < |a| :: a[k] == '\n'
    ensures LineLength(a + b) == LineLength(a)
    decreases |a|
  {
    if a[0] != '\n' {
      var k :| 0 <= k < |a| && a[k] == '\n';
      assert a[1..][k - 1] == '\n';
      ConcatTail(a, b);
      FirstLineWithin(a[1..], b);
    }
  }

  /** Lines of a text that ends with a newline, then of another, are the lines of both. */
  lemma {:induction false} LinesConcat(a: string, b: string)
    requires a == "" || a[|a| - 1] == '\n'
    ensures Lines(a + b) == Lines(a) + Lines(b)
    decreases |a|
  {
    if a != "" {
      FirstLineWithin(a, b);
      var n := LineLength(a);
      ConcatSplit(a, b, n);
      LinesConcat(a[n..], b);
    } else {
      assert a + b == b;
    }
  }

  /** An extension id that holds no newline. */
  predicate SingleLine(e: string) {
    forall k | 0 <= k < |e| :: e[k] != '\n'
  }

  /** The install line of such an id is one line of text. */
  lemma InstallLineAlone(e: string)
    requires SingleLine(e)
    ensures Lines(InstallLine(e)) == [InstallLine(e)]
  {
    var l := InstallLine(e);
    InstallLineNewlines(e);
    OneLine(l, "");
    assert l + "" == l;
    assert l[|l|..] == "";
  }

  /** The install block is empty or ends with a newline. */
  lemma InstallLinesEnd(exts: seq<string>)
    ensures var b := InstallLines(exts); b == "" || b[|b| - 1] == '\n'
  {
  }

  /** `f` applied to each element, in order. */
  function Each<A, B>(f: A -> B, xs: seq<A>): (r: seq<B>)
    ensures |r| == |xs| && forall i | 0 <= i < |xs| :: r[i] == f(xs[i])
  {
    if xs == [] then [] else Each(f, xs[..|xs| - 1]) + [f(xs[|xs| - 1])]
  }

  /** The install block's lines are the install lines of the extensions, in the list's order. */
  lemma {:induction false} InstallBlockEach(exts: seq<string>)
    requires forall e | e in exts :: SingleLine(e)
    ensures Lines(InstallLines(exts)) == Each(InstallLine, exts)
    decreases |exts|
  {
    if exts != [] {
      var init, e := exts[..|exts| - 1], exts[|exts| - 1];
      assert forall x | x in init :: x in exts;
      InstallBlockEach(init);
      InstallLinesEnd(init);
      LinesConcat(InstallLines(init), InstallLine(e));
      InstallLineAlone(e);
    }
  }

  /** The install block has exactly one line per extension, in the list's order. */
  lemma InstallBlockLines(exts: seq<string>)
    requires forall e | e in exts :: SingleLine(e)
    ensures var ls := Lines(InstallLines(exts));
      |ls| == |exts| && forall i | 0 <= i < |exts| :: ls[i] == InstallLine(exts[i])
  {
    InstallBlockEach(exts);
  }

  /** The text before and after the install lines, per system. */
  function Header(system: string): string {
    if system == "darwin" then MacHeader else if system == "windows" then WindowsHeader else LinuxHeader
  }

  function Footer(system: string): string {
    if system == "windows" then WindowsFooter else UnixFooter
  }

  /** The whole setup script for a system and an extension list. */
  function SetupScript(system: string, exts: seq<string>): string {
    Header(system) + InstallLines(exts) + Footer(system)
  }

  /** `script += ...` over the extensions, in their order (vscode_packager.py:472-473, 530-531, 612-613). */
  method AppendInstallLines(script: string, exts: seq<string>) returns (r: string)
    ensures r == script + InstallLines(exts)
  {
    r := script;
    for i := 0 to |exts|
      invariant r == script + InstallLines(exts[..i])
    {
      InstallLinesStep(exts, i);
      ConcatAssoc(script, InstallLines(exts[..i]), InstallLine(exts[i]));
      r := r + InstallLine(exts[i]);
    }
    assert exts[..|exts|] == exts;
  }

  lemma InstallLinesStep(exts: seq<string>, i: nat)
    requires i < |exts|
    ensures InstallLines(exts[..i + 1]) == InstallLines(exts[..i]) + InstallLine(exts[i])
  {
    assert exts[..i + 1][..i] == exts[..i];
  }

  /** `_get_macos_setup_script` (vscode_packager.py:417-481). */
  method MacSetupScript(exts: seq<string>) returns (script: string)
    ensures script == SetupScript("darwin", exts)
  {
    script := AppendInstallLines(MacHeader, exts);
    script := script + UnixFooter;
  }

  /** `_get_windows_setup_script` (vscode_packager.py:483-539). */
  method WindowsSetupScript(exts: seq<string>) returns (script: string)
    ensures script == SetupScript("windows", exts)
  {
    script := AppendInstallLines(WindowsHeader, exts);
    script := script + WindowsFooter;
  }

  /** `_get_linux_setup_script` (vscode_packager.py:541-621). */
  method LinuxSetupScript(exts: seq<string>) returns (script: string)
    ensures script == SetupScript("linux", exts)
  {
    script := AppendInstallLines(LinuxHeader, exts);
    script := script + UnixFooter;
  }

  /** Each fixed preamble ends with a newline. */
  lemma HeadersEndLines(system: string)
    ensures Header(system) != "" && Header(system)[|Header(system)| - 1] == '\n'
  {
  }

  /** Lines of three texts, the first two empty or ending with a newline. */
  lemma ThreeParts(a: string, b: string, c: string)
    requires a == "" || a[|a| - 1] == '\n'
    requires b == "" || b[|b| - 1] == '\n'
    ensures Lines(a + b + c) == Lines(a) + (Lines(b) + Lines(c))
  {
    LinesConcat(a, b + c);
    LinesConcat(b, c);
    assert a + b + c == a + (b + c);
  }

  /**
    A script made of a preamble ending in a newline, the install block and
    a closing text has the preamble's lines, then one install line per
    extension in the list's order, each installing that extension, then the
    closing text's lines. `HeadersEndLines` shows every preamble qualifies.
   */
  lemma ScriptLines(hd: string, exts: seq<string>, ft: string)
    requires hd != "" && hd[|hd| - 1] == '\n'
    requires forall e | e in exts :: SingleLine(e)
    ensures var ls := Lines(hd + InstallLines(exts) + ft);
      && |ls| == |Lines(hd)| + |exts| + |Lines(ft)|
      && ls[..|Lines(hd)|] == Lines(hd)
      && ls[|Lines(hd)| + |exts|..] == Lines(ft)
      && forall i | 0 <= i < |exts| :: ls[|Lines(hd)| + i] == InstallLine(exts[i])
  {
    var block := InstallLines(exts);
    InstallLinesEnd(exts);
    ThreeParts(hd, block, ft);
    BlockParts(hd, exts, ft);
  }

  /** The middle part of the script's lines is the install block's lines. */
  lemma BlockParts(hd: string, exts: seq<string>, ft: string)
    requires forall e | e in exts :: SingleLine(e)
    ensures var h, b, f := Lines(hd), Lines(InstallLines(exts)), Lines(ft);
      var ls := h + (b + f);
      && |ls| == |h| + |exts| + |f|
      && ls[..|h|] == h && ls[|h| + |exts|..] == f
      && forall i | 0 <= i < |exts| :: ls[|h| + i] == InstallLine(exts[i])
  {
    var h, b, f := Lines(hd), Lines(InstallLines(exts)), Lines(ft);
    InstallBlockLines(exts);
    Parts(h, b, f);
    assert |b| == |exts|;
    forall i | 0 <= i < |exts|
      ensures (h + (b + f))[|h| + i] == InstallLine(exts[i])
    {
      assert (h + (b + f))[|h| + i] == b[i];
    }
  }

  /** Each install line of the block names its extension, so the list can be read back from the script. */
  lemma InstalledInOrder(exts: seq<string>)
    requires forall e | e in exts :: SingleLine(e)
    ensures var b := Lines(InstallLines(exts));
      |b| == |exts| && forall i | 0 <= i < |exts| :: InstalledBy(b[i]) == exts[i]
  {
    InstallBlockLines(exts);
    forall i | 0 <= i < |exts|
      ensures InstalledBy(InstallLine(exts[i])) == exts[i]
    {
      InstalledByLine(exts[i]);
    }
  }

  /** The pieces of a concatenation, recovered by position. */
  lemma Parts<T>(h: seq<T>, b: seq<T>, f: seq<T>)
    ensures var s := h + (b + f);
      && |s| == |h| + |b| + |f|
      && s[..|h|] == h && s[|h| + |b|..] == f
      && forall i | 0 <= i < |b| :: s[|h| + i] == b[i]
  {
    var s := h + (b + f);
    assert s[..|h|] == h;
    assert s[|h| + |b|..] == f;
  }

  /** The script's file name (vscode_packager.py:399-407). */
  function ScriptName(system: string): (n: Name)
    ensures n == "setup.command" <==> system == "darwin"
    ensures n == "setup.bat" <==> system == "windows"
    ensures n == "setup.sh" <==> system != "darwin" && system != "windows"
  {
    if system == "darwin" then "setup.command" else if system == "windows" then "setup.bat" else "setup.sh"
  }

  /** `_create_setup_script` (vscode_packager.py:391-415): the script written in text mode into the packaged folder. */
  method CreateSetupScript(p: Packager, disk: Disk, packagedDir: Path, exts: seq<string>)
    modifies disk
    ensures disk.files == old(disk.files)[packagedDir + [ScriptName(p.system)] := File(Written(p.system, SetupScript(p.system, exts)))]
  {
    var name: Name;
    var content: string;
    if p.system == "darwin" {
      name := "setup.command";
      content := MacSetupScript(exts);
    } else if p.system == "windows" {
      name := "setup.bat";
      content := WindowsSetupScript(exts);
    } else {
      name := "setup.sh";
      content := LinuxSetupScript(exts);
      assert Header(p.system) == LinuxHeader && Footer(p.system) == UnixFooter;
    }
    disk.files := disk.files[packagedDir + [name] := File(Written(p.system, content))];
  }

  // ---------------------------------------------------------------------
  // Packaging (vscode_packager.py:623-898)
  // ---------------------------------------------------------------------

  const DmgName: Name := "VSCode_with_Settings.dmg"
  const ZipName: Name := "VSCode_with_Settings.zip"
  const TarName: Name := "VSCode_with_Settings.tar.gz"

  /** What the filesystem and the external tools do during one packaging run. */
  datatype ToolRun = ToolRun(appIsDir: bool, stagingOk: bool, hdiutilOk: bool, dmgCreated: bool, tarOk: bool)

  /** A package path returned, or an exception out of the call. */
  datatype Packaged = Packaged(path: Path) | Raised(error: string)

  /** What `_create_macos_dmg` returns before its `finally` runs (vscode_packager.py:659-774). */
  function DmgPending(outputDir: Path, run: ToolRun): Path {
    if run.appIsDir && run.stagingOk && run.hdiutilOk && run.dmgCreated then outputDir + [DmgName]
    else outputDir + [ZipName]
  }

  /**
    `_create_macos_dmg` as written: `temp_dmg` is bound only at :696, after
    the directory check and the staging copy, but the `finally` at :777
    reads it on every path, so an early fallback to zip raises instead.
   */
  function MacDmgAsWritten(outputDir: Path, run: ToolRun): Packaged {
    if run.appIsDir && run.stagingOk then Packaged(DmgPending(outputDir, run))
    else Raised("local variable 'temp_dmg' referenced before assignment")
  }

  /** `_create_macos_dmg` with `temp_dmg` bound before the `try`: every path returns a package. */
  function MacDmg(outputDir: Path, run: ToolRun): (r: Packaged)
    ensures r.Packaged?
    ensures r.path == outputDir + [DmgName] <==> run.appIsDir && run.stagingOk && run.hdiutilOk && run.dmgCreated
    ensures r.path == outputDir + [DmgName] || r.path == outputDir + [ZipName]
  {
    assert (outputDir + [DmgName])[|outputDir|] != (outputDir + [ZipName])[|outputDir|] by {
      assert DmgName[21] != ZipName[21];
    }
    Packaged(DmgPending(outputDir, run))
  }

  /** A path that is not a folder: the call as written raises, where the intended result is the zip fallback. */
  lemma MacDmgFinding(outputDir: Path)
    ensures var run := ToolRun(false, true, true, true, true);
      MacDmgAsWritten(outputDir, run).Raised? && MacDmg(outputDir, run) == Packaged(outputDir + [ZipName])
  {
  }

  /** Once `temp_dmg` is bound the two agree. */
  lemma MacDmgAgrees(outputDir: Path, run: ToolRun)
    requires run.appIsDir && run.stagingOk
    ensures MacDmgAsWritten(outputDir, run) == MacDmg(outputDir, run)
  {
  }

  /**
    `package_vscode` (vscode_packager.py:623-646) with the corrected
    `_create_macos_dmg`: a disk image on Darwin (zip as fallback), a zip on
    Windows, a tarball elsewhere (zip as fallback), all in `temp_dir/output`.
   */
  function PackageVSCode(p: Packager, run: ToolRun): (r: Packaged)
    ensures r.Packaged? && Dirname(r.path) == p.tempDir + ["output"]
    ensures Basename(r.path) == DmgName <==> p.system == "darwin" && run.appIsDir && run.stagingOk && run.hdiutilOk && run.dmgCreated
    ensures Basename(r.path) == TarName <==> p.system != "darwin" && p.system != "windows" && run.tarOk
    ensures Basename(r.path) in {DmgName, ZipName, TarName}
  {
    var out := p.tempDir + ["output"];
    assert DmgName != ZipName && DmgName != TarName && ZipName != TarName by {
      assert DmgName[21] != ZipName[21] && |DmgName| != |TarName| && |ZipName| != |TarName|;
    }
    if p.system == "darwin" then MacDmg(out, run)
    else if p.system == "windows" then Packaged(out + [ZipName])
    else if run.tarOk then Packaged(out + [TarName])
    else Packaged(out + [ZipName])
  }

  /** The file type `create_vscode_package` reports for a package path (vscode_packager.py:884-891). */
  function FileType(packagePath: string): (t: string)
    ensures t == "dmg" <==> EndsWith(packagePath, ".dmg")
    ensures t == "zip" <==> EndsWith(packagePath, ".zip")
    ensures t == "tar.gz" <==> EndsWith(packagePath, ".tar.gz")
    ensures t == "unknown" <==> !EndsWith(packagePath, ".dmg") && !EndsWith(packagePath, ".zip") && !EndsWith(packagePath, ".tar.gz")
  {
    SuffixesExclusive(packagePath);
    if EndsWith(packagePath, ".dmg") then "dmg"
    else if EndsWith(packagePath, ".zip") then "zip"
    else if EndsWith(packagePath, ".tar.gz") then "tar.gz"
    else "unknown"
  }

  /** The three suffixes end in different characters, so at most one applies. */
  lemma SuffixesExclusive(s: string)
    ensures !(EndsWith(s, ".dmg") && EndsWith(s, ".zip"))
    ensures !(EndsWith(s, ".dmg") && EndsWith(s, ".tar.gz"))
    ensures !(EndsWith(s, ".zip") && EndsWith(s, ".tar.gz"))
  {
    if EndsWith(s, ".dmg") {
      assert s[|s| - 1] == 'g';
    }
    if EndsWith(s, ".zip") {
      assert s[|s| - 1] == 'p';
    }
    if EndsWith(s, ".tar.gz") {
      assert s[|s| - 1] == 'z';
    }
  }

  /** The path string of a file ends with the file's name. */
  lemma JoinedEndsWith(d: Path, n: Name, suffix: string, sep: string)
    requires EndsWith(n, suffix)
    ensures EndsWith(Joined(d + [n], sep), suffix)
  {
    assert (d + [n])[..|d + [n]| - 1] == d;
    var j := Joined(d + [n], sep);
    assert j == Joined(d, sep) + sep + n;
    assert j[|j| - |suffix|..] == n[|n| - |suffix|..];
  }

  /** Every package the packager produces has a known type, matching the format chosen. */
  lemma PackagedFileType(p: Packager, run: ToolRun)
    ensures var r := PackageVSCode(p, run); var t := FileType(Joined(r.path, Separator(p.system)));
      && t != "unknown"
      && (t == "dmg" <==> Basename(r.path) == DmgName)
      && (t == "zip" <==> Basename(r.path) == ZipName)
      && (t == "tar.gz" <==> Basename(r.path) == TarName)
  {
    var r := PackageVSCode(p, run);
    var d := Dirname(r.path);
    assert r.path == d + [Basename(r.path)];
    assert EndsWith(DmgName, ".dmg") && EndsWith(ZipName, ".zip") && EndsWith(TarName, ".tar.gz");
    JoinedEndsWith(d, Basename(r.path), if Basename(r.path) == DmgName then ".dmg" else if Basename(r.path) == ZipName then ".zip" else ".tar.gz", Separator(p.system));
  }
}
