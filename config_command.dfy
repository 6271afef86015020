/** `npkg config`: get, set, remove, list and print the keys of a JSON
    defaults file, and `gen`, which prints a package's interpolated configuration. */
module ConfigCommand {
  import opened Wrappers
  import opened Json
  import opened Text
  import opened Layers
  import opened Resolver
  import opened Effects
  import Control

  datatype Subcommand = GetSub | SetSub | CatSub | ListSub | GenSub | RemoveSub | UsageSub

  /** The `switch (subcmd)` and its aliases; anything else prints the usage. */
  function ParseSubcommand(sub: Option<string>): (r: Subcommand)
    ensures r == GetSub <==> sub == Some("g") || sub == Some("get")
    ensures r == SetSub <==> sub == Some("s") || sub == Some("set")
    ensures r == CatSub <==> sub == Some("c") || sub == Some("cat")
    ensures r == ListSub <==> sub == Some("l") || sub == Some("ls") || sub == Some("list")
    ensures r == GenSub <==> sub == Some("gen") || sub == Some("generate")
    ensures r == RemoveSub <==> sub == Some("rm") || sub == Some("remove")
  {
    match sub
    case None => UsageSub
    case Some(s) =>
      if s == "g" || s == "get" then GetSub
      else if s == "s" || s == "set" then SetSub
      else if s == "c" || s == "cat" then CatSub
      else if s == "l" || s == "ls" || s == "list" then ListSub
      else if s == "gen" || s == "generate" then GenSub
      else if s == "rm" || s == "remove" then RemoveSub
      else UsageSub
  }

  /** `$HOME/etc`, or `$HOME/etc/<name>` when a package name is given. */
  function ConfigDir(home: string, name: Option<string>): (dir: string)
    ensures Control.Missing(name) ==> dir == home + "/etc"
    ensures !Control.Missing(name) ==> dir == home + "/etc/" + name.value
  {
    home + "/etc" + (if Control.Missing(name) then "" else "/" + name.value)
  }

  /** The defaults file inside a configuration directory. */
  function ConfigPath(dir: string): (path: string)
    ensures |path| >= |dir| && path[..|dir|] == dir && path[|dir|..] == "/defaults.json"
  {
    dir + "/defaults.json"
  }

  /** `KEY=VAL` given as one word: `key.split('=')`, segment 0 the key and segment
      1 (absent when there is no `=`) the value. */
  function SplitAssignment(s: string): (kv: (string, Option<string>))
    ensures '=' !in kv.0
    ensures kv.1.None? <==> '=' !in s
    ensures kv.1.None? ==> kv.0 == s
    ensures kv.1.Some? ==>
      var n := |kv.0|;
      var v := kv.1.value;
      && n + 1 + |v| <= |s|
      && s[..n] == kv.0 && s[n] == '=' && s[n + 1..n + 1 + |v|] == v && '=' !in v
      && (n + 1 + |v| == |s| || s[n + 1 + |v|] == '=')
  {
    var parts := SplitOn(s, '=');
    if |parts| == 1 then
      (parts[0], None)
    else
      JoinPrefix(parts, '=');
      JoinPrefix(parts[1..], '=');
      (parts[0], Some(parts[1]))
  }

  /** A joined sequence starts with its first part, followed by the separator
      when more parts follow. */
  lemma JoinPrefix(parts: seq<string>, sep: char)
    requires |parts| >= 1
    ensures var s := Join(parts, sep);
      && |parts[0]| <= |s| && s[..|parts[0]|] == parts[0]
      && (|parts| == 1 <==> |s| == |parts[0]|)
      && (|parts| > 1 ==> s[|parts[0]|] == sep && s[|parts[0]| + 1..] == Join(parts[1..], sep))
  {
  }

  /** `config[key] = val` written back with `JSON.stringify`, which drops a
      property whose value is `undefined`: only `key` changes. */
  function Assigned(config: map<string, Value>, key: string, val: Option<string>): (r: map<string, Value>)
    ensures forall k | k != key :: (k in r <==> k in config) && (k in r ==> r[k] == config[k])
    ensures val.Some? ==> key in r && r[key] == Str(val.value)
    ensures val.None? ==> key !in r
  {
    if val.None? then config - {key} else config[key := Str(val.value)]
  }

  /** `delete config[key]`: only `key` goes. */
  function Removed(config: map<string, Value>, key: string): (r: map<string, Value>)
    ensures r.Keys == config.Keys - {key}
    ensures forall k | k in r :: r[k] == config[k]
  {
    config - {key}
  }

  /** The property name a missing command-line word stands for in `config[key]`. */
  function PropertyKey(key: Option<string>): string {
    if key.None? then "undefined" else key.value
  }

  /** What `console.log` prints for `config get`. */
  datatype Printed = EmptyLine | ValueLine(v: Value)

  /** `config get KEY`: the stored value, or an empty line for a key the file lacks. */
  function GetLine(config: map<string, Value>, key: string): (p: Printed)
    ensures p == EmptyLine <==> key !in config
    ensures p.ValueLine? ==> p.v == config[key]
  {
    if key !in config then EmptyLine else ValueLine(config[key])
  }

  /** The package path `config gen` interpolates against. */
  function GenPackagePath(pkg: string, w: World, libs: Libs): (path: string)
    requires HomeSet(w.host)
    ensures IsRelative(pkg) ==> path == libs.absolute(w.host.cwd, pkg)
    ensures !IsRelative(pkg) ==> path == libs.join(libs.join(w.host.env["HOME"], "lib/node_modules"), pkg)
  {
    if IsRelative(pkg) then libs.absolute(w.host.cwd, pkg)
    else libs.join(libs.join(w.host.env["HOME"], "lib/node_modules"), pkg)
  }

  /** The overrides `config gen` loads after a relative module's environment. */
  function GenOverrides(cwd: string): map<string, Value> {
    map["PATH" := Str(PathTemplate), "LOGDIR" := Str(cwd)]
  }

  /** `config gen` loads the invoking environment first and then PATH and
      LOGDIR, so that here LOGDIR is always the current directory. */
  function GenLayers(pkg: string, w: World, libs: Libs): seq<map<string, Value>> {
    if IsRelative(pkg) then [Strings(w.host.env), GenOverrides(w.host.cwd)]
    else [SystemDefaults(w, libs), ModuleDefaults(pkg, w, libs)]
  }

  /** `mappings(root, pkg_path)`: the arguments swapped, so package is $HOME and
      root is the package path. */
  function GenContext(pkg: string, w: World, libs: Libs): Context
    requires HomeSet(w.host)
  {
    Mappings(w.host, w.host.env["HOME"], GenPackagePath(pkg, w, libs))
  }

  /** The output of `config gen`: a leading empty line for a global module, then
      one `key=value` line per configuration key. */
  datatype Generated = Generated(blankLine: bool, lines: map<string, string>)

  /** `config gen PKG`. */
  method Generate(pkg: string, w: World, libs: Libs) returns (g: Generated)
    requires HomeSet(w.host)
    ensures g == Generated(!IsRelative(pkg), Expanded(Merged(GenLayers(pkg, w, libs)), GenContext(pkg, w, libs), libs.expand))
  {
    var config := new Config<Value>();
    var pkgPath: string;
    if IsRelative(pkg) {
      pkgPath := libs.absolute(w.host.cwd, pkg);
      config.Load(Strings(w.host.env));
      config.Load(GenOverrides(w.host.cwd));
    } else {
      pkgPath := libs.join(libs.join(w.host.env["HOME"], "lib/node_modules"), pkg);
      config.Load(Graceful(w.files(libs.npaths("config_defaults", None))));
      config.Load(Graceful(w.files(libs.npaths("config_defaults_module", Some(pkg)))));
    }
    assert config.layers == GenLayers(pkg, w, libs);
    var ctx := Mappings(w.host, w.host.env["HOME"], pkgPath);
    var lines := ExpandConfig(config, ctx, libs.expand);
    g := Generated(!IsRelative(pkg), lines);
  }

  /** For a relative module `config gen` prints every invoking-environment
      variable, PATH as the template and LOGDIR as the current directory, whatever
      the environment says about either. */
  lemma GenRelative(pkg: string, w: World, libs: Libs)
    requires HomeSet(w.host) && IsRelative(pkg)
    ensures var lines := Expanded(Merged(GenLayers(pkg, w, libs)), GenContext(pkg, w, libs), libs.expand);
            var ctx := GenContext(pkg, w, libs);
            && lines.Keys == w.host.env.Keys + {"PATH", "LOGDIR"}
            && lines["LOGDIR"] == libs.expand(ctx, Str(w.host.cwd))
            && lines["PATH"] == libs.expand(ctx, Str(PathTemplate))
            && forall k | k in w.host.env && k != "PATH" && k != "LOGDIR" :: lines[k] == libs.expand(ctx, Str(w.host.env[k]))
  {
    var env, cwd := w.host.env, w.host.cwd;
    MergedOfTwo(Strings(env), GenOverrides(cwd));
    assert Merged(GenLayers(pkg, w, libs)) == Strings(env) + GenOverrides(cwd);
    EnvOverridden(env, cwd);
  }

  /** The environment with `config gen`'s overrides on top. */
  lemma EnvOverridden(env: map<string, string>, cwd: string)
    ensures var m := Strings(env) + GenOverrides(cwd);
            && m.Keys == env.Keys + {"PATH", "LOGDIR"}
            && m["LOGDIR"] == Str(cwd)
            && m["PATH"] == Str(PathTemplate)
            && forall k | k in env && k != "PATH" && k != "LOGDIR" :: m[k] == Str(env[k])
  {
    var m := Strings(env) + GenOverrides(cwd);
    assert GenOverrides(cwd).Keys == {"PATH", "LOGDIR"};
    forall k | k in env && k != "PATH" && k != "LOGDIR" ensures m[k] == Str(env[k]) {
      assert k !in GenOverrides(cwd);
    }
  }

  /** For a global module `config gen` reads the same two defaults files as a
      run, without the start script's assignments. */
  lemma GenGlobalLayers(pkg: string, w: World, libs: Libs)
    requires !IsRelative(pkg)
    ensures GenLayers(pkg, w, libs) == BaseLayers(pkg, w, libs)
  {
  }

  /** The two commands disagree on LOGDIR: with LOGDIR set in the invoking
      environment and not by the start script, a run of a relative module uses
      the environment's value and `config gen` the current directory. */
  lemma RunAndGenLogDir(pkg: string, w: World, libs: Libs)
    requires HomeSet(w.host) && IsRelative(pkg) && StartOf(pkg, libs).Some?
    requires "LOGDIR" in w.host.env && "LOGDIR" !in CommandOf(pkg, libs).envs
    ensures Resolve(pkg, w, libs).Success? && "LOGDIR" in Resolve(pkg, w, libs).value.env
    ensures Resolve(pkg, w, libs).value.env["LOGDIR"] == libs.expand(RunContext(pkg, w, libs), Str(w.host.env["LOGDIR"]))
    ensures var gen := Expanded(Merged(GenLayers(pkg, w, libs)), GenContext(pkg, w, libs), libs.expand);
            "LOGDIR" in gen && gen["LOGDIR"] == libs.expand(GenContext(pkg, w, libs), Str(w.host.cwd))
  {
    RelativeEnvironment(pkg, w, libs);
    assert RuntimeDirs[2] == "LOGDIR";
    GenRelative(pkg, w, libs);
  }

  /** The context of `config gen` has the roles of a run's swapped: package is
      $HOME instead of the reference, root the package path it computes itself. */
  lemma GenContextSwapped(pkg: string, w: World, libs: Libs)
    requires HomeSet(w.host)
    ensures GenContext(pkg, w, libs).package == w.host.env["HOME"]
    ensures GenContext(pkg, w, libs).root == GenPackagePath(pkg, w, libs)
    ensures RunContext(pkg, w, libs).package == pkg
    ensures RunContext(pkg, w, libs).root == libs.resolve(pkg)
  {
  }

  datatype ConfigOutput =
    | Usage                          // cfg_usage(): the usage text, then exit status 1
    | GetOutput(line: Printed)
    | KeyList(keys: set<string>)     // list: one key per line
    | Pairs(entries: map<string, Value>) // cat: one key=value per line
    | GenOutput(generated: Generated)
    | Saved                          // set, rm: the defaults file was rewritten

  /** `npkg config SUBCMD KEY VAL` with `--name`/`-n` given as `name`. */
  method ConfigMain(sub: Option<string>, key: Option<string>, val: Option<string>, name: Option<string>,
                    w: World, libs: Libs, fs: FileSystem) returns (out: ConfigOutput)
    requires HomeSet(w.host)
    modifies fs
    ensures var dir := ConfigDir(w.host.env["HOME"], name);
            var path := ConfigPath(dir);
            var config := Graceful(w.files(path));
            match ParseSubcommand(sub)
            case GetSub =>
              && out == (if Control.Missing(key) then Usage else GetOutput(GetLine(config, key.value)))
              && unchanged(fs)
            case SetSub =>
              if Control.Missing(key) then out == Usage && unchanged(fs)
              else
                var kv := if Control.Missing(val) then SplitAssignment(key.value) else (key.value, val);
                && out == Saved
                && fs.events == old(fs.events) + [Made(dir), Wrote(Write(path, Assigned(config, kv.0, kv.1)))]
            case CatSub => out == Pairs(config) && unchanged(fs)
            case ListSub => out == KeyList(config.Keys) && unchanged(fs)
            case GenSub =>
              && out == (if Control.Missing(key) then Usage
                         else GenOutput(Generated(!IsRelative(key.value),
                                Expanded(Merged(GenLayers(key.value, w, libs)), GenContext(key.value, w, libs), libs.expand))))
              && unchanged(fs)
            case RemoveSub =>
              && out == Saved
              && fs.events == old(fs.events) + [Wrote(Write(path, Removed(config, PropertyKey(key))))]
            case UsageSub => out == Usage && unchanged(fs)
  {
    var dir := ConfigDir(w.host.env["HOME"], name);
    var path := ConfigPath(dir);
    var config := Graceful(w.files(path));

    match ParseSubcommand(sub)
    case GetSub =>
      out := if Control.Missing(key) then Usage else GetOutput(GetLine(config, key.value));
    case SetSub =>
      if Control.Missing(key) {
        return Usage;
      }
      fs.Mkdirp(dir);
      var k, v := key.value, val;
      if Control.Missing(val) {
        var kv := SplitAssignment(key.value);
        k, v := kv.0, kv.1;
      }
      config := Assigned(config, k, v);
      fs.WriteJson(path, config);
      out := Saved;
    case CatSub =>
      out := Pairs(config);
    case ListSub =>
      out := KeyList(config.Keys);
    case GenSub =>
      if Control.Missing(key) {
        return Usage;
      }
      var g := Generate(key.value, w, libs);
      out := GenOutput(g);
    case RemoveSub =>
      config := Removed(config, PropertyKey(key));
      fs.WriteJson(path, config);
      out := Saved;
    case UsageSub =>
      out := Usage;
  }
}
