/** The command-line helpers of src/mangadm/cli/cli_util.py: prefix resolution of command
    names, the settings table, the configuration file's location and its tolerant loading. */
module CliUtil {
  import opened Wrappers
  import opened Strings
  import opened Ordering
  import opened Json
  import opened FileSystem
  import opened PathNames

  // ---------------------------------------------------------------------------------------
  // Command resolution

  /** The registered names that start with the partial name. */
  function Matches(commands: set<string>, partial: string): set<string> {
    set c | c in commands && StartsWith(c, partial)
  }

  /** sorted(matches). */
  function Listing(matches: set<string>): (l: seq<string>)
    ensures |l| == |matches|
    ensures forall x :: x in l <==> x in matches
    ensures SortedBy(l, StrLess)
  {
    StrLessStrictTotal();
    SortSet(matches, StrLess)
  }

  /** The message of the BadParameter raised for an ambiguous name. */
  function AmbiguityMessage(partial: string, matches: set<string>): string {
    "Ambiguous command '" + partial + "'. Possible matches: " + JoinWith(Listing(matches), ", ")
  }

  /** PartialMatchGroup._resolve_command_name: the name itself when nothing starts with it,
      the one command that does, or BadParameter listing every command that does. The
      commands are the keys of click's command dict, so they form a set here. */
  function ResolveCommandName(commands: set<string>, partial: string): (r: Result<string>)
    ensures Matches(commands, partial) == {} ==> r == Ok(partial)
    ensures |Matches(commands, partial)| == 1 ==> r.Ok? && r.value in Matches(commands, partial)
    ensures |Matches(commands, partial)| >= 2 ==>
      r == Err(BadParameter(AmbiguityMessage(partial, Matches(commands, partial))))
  {
    var matches := Listing(Matches(commands, partial));
    if |matches| == 0 then Ok(partial)
    else if |matches| == 1 then Ok(matches[0])
    else Err(BadParameter(AmbiguityMessage(partial, Matches(commands, partial))))
  }

  /** A resolved name is either the input unchanged or a registered command. */
  lemma ResolvedNameIsInputOrCommand(commands: set<string>, partial: string)
    requires ResolveCommandName(commands, partial).Ok?
    ensures var n := ResolveCommandName(commands, partial).value;
      n == partial || (n in commands && StartsWith(n, partial))
  {
    var m := Matches(commands, partial);
    if |m| == 1 {
      var n := ResolveCommandName(commands, partial).value;
      assert n in m;
    }
  }

  /** The name resolves to c exactly when c is the only command starting with it. */
  lemma UniquePrefix(commands: set<string>, partial: string, c: string)
    requires c in commands && StartsWith(c, partial)
    ensures ResolveCommandName(commands, partial) == Ok(c) <==>
      forall d :: d in commands && StartsWith(d, partial) ==> d == c
  {
    var m := Matches(commands, partial);
    assert c in m;
    if forall d :: d in commands && StartsWith(d, partial) ==> d == c {
      assert m == {c};
    } else {
      var d :| d in commands && StartsWith(d, partial) && d != c;
      assert {c, d} <= m;
      assert |{c, d}| == 2;
      SubsetCard({c, d}, m);
    }
  }

  /** Resolution fails exactly when two different commands start with the name, even when
      the name is itself a full command name. */
  lemma AmbiguousIff(commands: set<string>, partial: string)
    ensures ResolveCommandName(commands, partial).Err? <==>
      exists c, d :: c in commands && d in commands && c != d
                     && StartsWith(c, partial) && StartsWith(d, partial)
  {
    var m := Matches(commands, partial);
    if exists c, d :: c in commands && d in commands && c != d
                      && StartsWith(c, partial) && StartsWith(d, partial) {
      var c, d :| c in commands && d in commands && c != d
                  && StartsWith(c, partial) && StartsWith(d, partial);
      assert {c, d} <= m;
      assert |{c, d}| == 2;
      SubsetCard({c, d}, m);
    }
    if |m| >= 2 {
      var c :| c in m;
      assert |m - {c}| >= 1;
      var d :| d in m - {c};
    }
  }

  /** A command that is also a prefix of another command cannot be called by its full name. */
  lemma ExactNameStillAmbiguous(commands: set<string>, name: string, longer: string)
    requires name in commands && longer in commands && longer != name && StartsWith(longer, name)
    ensures ResolveCommandName(commands, name).Err?
  {
    assert StartsWith(name, name);
    AmbiguousIff(commands, name);
  }

  lemma SubsetCard<T>(a: set<T>, b: set<T>)
    requires a <= b
    ensures |a| <= |b|
  {
    assert b == a + (b - a);
  }

  // ---------------------------------------------------------------------------------------
  // The settings table

  const SaveDefaultsKey: string := "save_defaults"

  /** The rows of the settings table: every key but `save_defaults`, with `str(value)`, in
      the dict's order. */
  function SettingsRows(settings: seq<(string, Json)>): (rows: seq<(string, string)>)
    ensures |rows| <= |settings|
    ensures forall i :: 0 <= i < |rows| ==> rows[i].0 != SaveDefaultsKey
  {
    if settings == [] then []
    else
      var front := SettingsRows(settings[..|settings| - 1]);
      var (key, value) := settings[|settings| - 1];
      if key != SaveDefaultsKey then front + [(key, Show(value))] else front
  }

  /** display_settings: one table row per setting other than `save_defaults`. */
  method DisplaySettings(settings: seq<(string, Json)>) returns (rows: seq<(string, string)>)
    ensures rows == SettingsRows(settings)
  {
    rows := [];
    var i := 0;
    while i < |settings|
      invariant 0 <= i <= |settings|
      invariant rows == SettingsRows(settings[..i])
    {
      var (key, value) := settings[i];
      assert settings[..i + 1][..i] == settings[..i];
      if key != SaveDefaultsKey {
        rows := rows + [(key, Show(value))];
      }
      i := i + 1;
    }
    assert settings[..i] == settings;
  }

  /** Without a `save_defaults` key every setting gives its row, in order. */
  lemma {:induction false} SettingsRowsAll(settings: seq<(string, Json)>)
    requires forall i :: 0 <= i < |settings| ==> settings[i].0 != SaveDefaultsKey
    ensures SettingsRows(settings) ==
      seq(|settings|, i requires 0 <= i < |settings| => (settings[i].0, Show(settings[i].1)))
    decreases |settings|
  {
    if settings != [] {
      SettingsRowsAll(settings[..|settings| - 1]);
    }
  }

  /** Some setting other than `save_defaults` has this key and shows as this value. */
  ghost predicate ShownSetting(settings: seq<(string, Json)>, row: (string, string)) {
    exists i :: 0 <= i < |settings| && settings[i].0 == row.0 && row.0 != SaveDefaultsKey
                && Show(settings[i].1) == row.1
  }

  /** A row is exactly a setting other than `save_defaults`, with its value shown. */
  lemma {:induction false} SettingsRowsMembers(settings: seq<(string, Json)>, row: (string, string))
    ensures row in SettingsRows(settings) <==> ShownSetting(settings, row)
    decreases |settings|
  {
    if settings != [] {
      var front := settings[..|settings| - 1];
      SettingsRowsMembers(front, row);
      if ShownSetting(front, row) {
        var i :| 0 <= i < |front| && front[i].0 == row.0 && row.0 != SaveDefaultsKey
                 && Show(front[i].1) == row.1;
        assert settings[i] == front[i];
      }
      if ShownSetting(settings, row) {
        var i :| 0 <= i < |settings| && settings[i].0 == row.0 && row.0 != SaveDefaultsKey
                 && Show(settings[i].1) == row.1;
        if i < |front| {
          assert front[i] == settings[i];
        }
      }
    }
  }

  // ---------------------------------------------------------------------------------------
  // The configuration file

  /** The folder of the configuration file: `$APPDATA` when it is set and not empty, else
      `~/.config`, then `manga_dm`. */
  function ConfigDir(appdata: Option<string>, home: Path): (dir: Path)
    ensures appdata.Some? && appdata.value != "" ==> dir == Components(appdata.value) + ["manga_dm"]
    ensures appdata.None? || appdata.value == "" ==> dir == home + [".config", "manga_dm"]
  {
    var base := if appdata.Some? && appdata.value != "" then Components(appdata.value) else home + [".config"];
    base + ["manga_dm"]
  }

  /** _resolve_config_path: `config.json` in the configuration folder, which is created
      with its parents; nothing that existed changes. */
  function ResolveConfigPath(fs: FS, appdata: Option<string>, home: Path): (r: (Path, FS))
    ensures r.0 == ConfigDir(appdata, home) + ["config.json"]
    ensures ConfigDir(appdata, home) in r.1
    ensures forall q :: q in fs ==> q in r.1 && r.1[q] == fs[q]
  {
    var dir := ConfigDir(appdata, home);
    (dir + ["config.json"], MkDirs(fs, dir))
  }

  /** What reading and parsing an existing configuration file gave: an OSError, bytes that
      are not UTF-8 (a UnicodeDecodeError, which `_load` does not catch), text that is not
      JSON, or a parsed value. */
  datatype ConfigRead = ReadFailed | NotUtf8 | NotJson | Value(v: Json)

  const EmptySettings: Json := JObj([])

  /** _load: `{}` for a missing file or an OSError or JSONDecodeError; a decoding error of the
      text escapes; otherwise whatever value the file held. */
  function Load(fs: FS, path: Path, read: ConfigRead): (r: Result<Json>)
    ensures path !in fs ==> r == Ok(EmptySettings)
    ensures r.Err? <==> path in fs && !IsDir(fs, path) && read.NotUtf8?
    ensures r.Ok? && r.value != EmptySettings ==> path in fs && read == Value(r.value)
  {
    if path !in fs then Ok(EmptySettings)
    else if IsDir(fs, path) then Ok(EmptySettings)  // read_text raises IsADirectoryError
    else
      match read
      case ReadFailed => Ok(EmptySettings)
      case NotJson => Ok(EmptySettings)
      case NotUtf8 => Err(ValueError("UnicodeDecodeError"))
      case Value(v) => Ok(v)
  }
}
