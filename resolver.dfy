/** The job-specification resolver (`generateRunParameters`): classify the
    package reference, assemble the configuration layers, parse the start
    script, expand every variable, ensure the runtime directories and emit
    the job record. */
module Resolver {
  import opened Wrappers
  import opened Json
  import opened Layers
  import opened Effects

  /** The invoking process: `process.env`, `process.cwd()`, `os.hostname()`, `os.tmpdir()`. */
  datatype Host = Host(env: map<string, string>, cwd: string, hostname: string, tmpdir: string)

  /** The program computes `path.join(process.env.HOME, …)` when it loads, which
      throws unless HOME is set; every command therefore runs with HOME set. */
  predicate HomeSet(h: Host) {
    "HOME" in h.env
  }

  /** `process.env[name]`. */
  function EnvVar(h: Host, name: string): Option<string> {
    if name in h.env then Some(h.env[name]) else None
  }

  /** The interpolation context, one entry per `%{name}` token the program provides. */
  datatype Context = Context(
    home: string,
    user: Option<string>,
    root: string,
    package: string,
    path: Option<string>,
    hostname: string,
    tmpdir: string)

  /** `mappings(pkg, root)`. */
  function Mappings(h: Host, pkg: string, root: string): (m: Context)
    requires HomeSet(h)
    ensures m.home == h.env["HOME"] && m.root == root && m.package == pkg
    ensures m.user.Some? <==> "USER" in h.env
    ensures m.user.Some? ==> m.user.value == h.env["USER"]
    ensures m.path.Some? <==> "PATH" in h.env
    ensures m.path.Some? ==> m.path.value == h.env["PATH"]
    ensures m.hostname == h.hostname && m.tmpdir == h.tmpdir
  {
    Context(h.env["HOME"], EnvVar(h, "USER"), root, pkg, EnvVar(h, "PATH"), h.hostname, h.tmpdir)
  }

  /** What `lib-cmdparse` makes of a start script. */
  datatype Command = Command(exec: string, args: seq<string>, envs: map<string, string>)

  /** The collaborators the program calls and whose code is not part of this model. */
  datatype Libs = Libs(
    resolve: string -> string,                  // lib-npkg-resolve: a reference's path on disk
    modinfo: string -> Option<Value>,           // lib-modinfo: the package.json at a path
    cmdparse: Value -> Command,                 // lib-cmdparse
    expand: (Context, Value) -> string,         // new Interp(context).expand(value)
    npaths: (string, Option<string>) -> string, // lib-npkg-paths, with an optional package
    join: (string, string) -> string,           // path.join
    absolute: (string, string) -> string,       // path.resolve
    hash: string -> string)                     // npkg-module-hash

  /** The invoking process and the contents of the JSON files it can read. */
  datatype World = World(host: Host, files: string -> FileRead)

  /** The job stanza. */
  datatype Job = Job(exec: string, args: seq<string>, cwd: string, env: map<string, string>)

  /** The error thrown when there is no start script. Its message is a fixed
      text with an unfilled `%s`: `Error` does not format its arguments, so the
      package is not part of it. */
  datatype ResolveError = MissingStartScript

  /** `s[i]`, which is `undefined` past the end. */
  function CharAt(s: string, i: nat): Option<char> {
    if i < |s| then Some(s[i]) else None
  }

  /** `is_relative(pth)`. */
  predicate IsRelative(pkg: string)
    ensures IsRelative(pkg) <==> |pkg| > 0 && (pkg[0] == '.' || pkg[0] == '/')
  {
    CharAt(pkg, 0) == Some('.') || CharAt(pkg, 0) == Some('/')
  }

  /** A reference is relative exactly when it starts with `.` or `/`; the empty
      reference is global. */
  lemma RelativeByPrefix(pkg: string)
    ensures IsRelative(pkg) <==> (exists rest :: pkg == "." + rest || pkg == "/" + rest)
    ensures !IsRelative("")
  {
    if IsRelative(pkg) {
      assert pkg == [pkg[0]] + pkg[1..];
    }
  }

  /** Property `name` of a parsed JSON value; only objects have them. */
  function Field(v: Value, name: string): Option<Value> {
    if v.Object? && name in v.fields then Some(v.fields[name]) else None
  }

  /** `info && info.scripts && info.scripts.start`, when truthy. */
  function StartScript(info: Option<Value>): (start: Option<Value>)
    ensures start.Some? <==>
              && info.Some? && info.value.Object? && "scripts" in info.value.fields
              && info.value.fields["scripts"].Object? && "start" in info.value.fields["scripts"].fields
              && Truthy(info.value.fields["scripts"].fields["start"])
    ensures start.Some? ==> start.value == info.value.fields["scripts"].fields["start"]
  {
    if info.None? then None
    else match Field(info.value, "scripts")
      case None => None
      case Some(scripts) =>
        match Field(scripts, "start")
        case None => None
        case Some(start) => if Truthy(start) then Some(start) else None
  }

  /** The start script of the package a reference resolves to. */
  function StartOf(pkg: string, libs: Libs): Option<Value> {
    StartScript(libs.modinfo(libs.resolve(pkg)))
  }

  /** The parsed start script of a package that has one. */
  function CommandOf(pkg: string, libs: Libs): Command
    requires StartOf(pkg, libs).Some?
  {
    libs.cmdparse(StartOf(pkg, libs).value)
  }

  /** The interpolation context of a run: root is the package path, package the reference. */
  function RunContext(pkg: string, w: World, libs: Libs): Context
    requires HomeSet(w.host)
  {
    Mappings(w.host, pkg, libs.resolve(pkg))
  }

  const PathTemplate := "%{root}/node_modules/.bin : %{path}"

  /** The directory variables every job may rely on, in the order they are ensured. */
  const RuntimeDirs := ["VARDIR", "TEMPDIR", "LOGDIR"]

  /** A relative module's data lives in the current directory. */
  function DirDefaults(cwd: string): map<string, Value> {
    map["VARDIR" := Str(cwd), "LOGDIR" := Str(cwd), "TEMPDIR" := Str(cwd)]
  }

  function PathLayer(): map<string, Value> {
    map["PATH" := Str(PathTemplate)]
  }

  /** The two defaults files of a global module: the system one, then the package's own. */
  function SystemDefaults(w: World, libs: Libs): map<string, Value> {
    Graceful(w.files(libs.npaths("config_defaults", None)))
  }

  function ModuleDefaults(pkg: string, w: World, libs: Libs): map<string, Value> {
    Graceful(w.files(libs.npaths("config_defaults_module", Some(pkg))))
  }

  /** The layers loaded before the start script's own assignments. */
  function BaseLayers(pkg: string, w: World, libs: Libs): seq<map<string, Value>> {
    if IsRelative(pkg) then [DirDefaults(w.host.cwd), Strings(w.host.env), PathLayer()]
    else [SystemDefaults(w, libs), ModuleDefaults(pkg, w, libs)]
  }

  /** Every value of a merged configuration, expanded. */
  function Expanded(m: map<string, Value>, ctx: Context, expand: (Context, Value) -> string): (env: map<string, string>)
    ensures env.Keys == m.Keys
  {
    map k | k in m :: expand(ctx, m[k])
  }

  /** The outcome of `generateRunParameters(pkg)`. */
  function Resolve(pkg: string, w: World, libs: Libs): Result<Job, ResolveError>
    requires HomeSet(w.host)
  {
    match StartOf(pkg, libs)
    case None => Failure(MissingStartScript)
    case Some(_) =>
      var cmds := CommandOf(pkg, libs);
      var layers := BaseLayers(pkg, w, libs) + [Strings(cmds.envs)];
      Success(Job(cmds.exec, cmds.args, libs.resolve(pkg), Expanded(Merged(layers), RunContext(pkg, w, libs), libs.expand)))
  }

  /** `[env[name]]` when `env[name]` is truthy (present and non-empty). */
  function EnsureIfSet(env: map<string, string>, name: string): seq<string> {
    if name in env && env[name] != "" then [env[name]] else []
  }

  /** The directories a resolved job's environment asks to be ensured, in order. */
  function EnsuredDirs(env: map<string, string>): seq<string> {
    EnsureIfSet(env, "VARDIR") + EnsureIfSet(env, "TEMPDIR") + EnsureIfSet(env, "LOGDIR")
  }

  /** Exactly the truthy values of VARDIR, TEMPDIR and LOGDIR are ensured, at most
      one directory each, VARDIR's first and LOGDIR's last. */
  lemma EnsuredDirsExactly(env: map<string, string>, d: string)
    ensures d in EnsuredDirs(env) <==> d != "" && exists i :: 0 <= i < |RuntimeDirs| && RuntimeDirs[i] in env && env[RuntimeDirs[i]] == d
    ensures |EnsuredDirs(env)| <= 3
    ensures "VARDIR" in env && env["VARDIR"] != "" ==> EnsuredDirs(env)[0] == env["VARDIR"]
    ensures "LOGDIR" in env && env["LOGDIR"] != "" ==> EnsuredDirs(env)[|EnsuredDirs(env)| - 1] == env["LOGDIR"]
  {
    if d != "" && "TEMPDIR" in env && env["TEMPDIR"] == d {
      assert RuntimeDirs[1] == "TEMPDIR";
    }
    if d != "" && "LOGDIR" in env && env["LOGDIR"] == d {
      assert RuntimeDirs[2] == "LOGDIR";
    }
    if d != "" && "VARDIR" in env && env["VARDIR"] == d {
      assert RuntimeDirs[0] == "VARDIR";
    }
  }

  /** `config.keys().forEach(key => envs[key] = interp.expand(config.get(key)))`. */
  method ExpandConfig(config: Config<Value>, ctx: Context, expand: (Context, Value) -> string) returns (envs: map<string, string>)
    ensures envs == Expanded(Merged(config.layers), ctx, expand)
  {
    envs := map[];
    var pending := config.Keys();
    while pending != {}
      invariant pending <= config.Keys()
      invariant envs.Keys == config.Keys() - pending
      invariant forall k | k in envs :: envs[k] == expand(ctx, config.Get(k))
      decreases pending
    {
      var key :| key in pending;
      envs := envs[key := expand(ctx, config.Get(key))];
      pending := pending - {key};
    }
    MergedAgrees(config.layers);
  }

  /** `if (envs[name]) mkdirp(envs[name])`. */
  method EnsureDir(fs: FileSystem, envs: map<string, string>, name: string)
    modifies fs
    ensures fs.events == old(fs.events) + Mkdirs(EnsureIfSet(envs, name))
  {
    if name in envs && envs[name] != "" {
      fs.Mkdirp(envs[name]);
    }
  }

  /** The three `if (envs.X) mkdirp(envs.X)` lines, VARDIR, TEMPDIR and LOGDIR in that order. */
  method EnsureRuntimeDirs(fs: FileSystem, envs: map<string, string>)
    modifies fs
    ensures fs.events == old(fs.events) + Mkdirs(EnsuredDirs(envs))
  {
    EnsureDir(fs, envs, "VARDIR");
    EnsureDir(fs, envs, "TEMPDIR");
    EnsureDir(fs, envs, "LOGDIR");
    MkdirsAppend(EnsureIfSet(envs, "VARDIR"), EnsureIfSet(envs, "TEMPDIR"));
    MkdirsAppend(EnsureIfSet(envs, "VARDIR") + EnsureIfSet(envs, "TEMPDIR"), EnsureIfSet(envs, "LOGDIR"));
  }

  /** The layers a relative or a global module starts from, loaded in order. */
  method LoadBaseLayers(config: Config<Value>, pkg: string, w: World, libs: Libs)
    modifies config
    ensures config.layers == old(config.layers) + BaseLayers(pkg, w, libs)
  {
    if IsRelative(pkg) {
      config.Load(DirDefaults(w.host.cwd));
      config.Load(Strings(w.host.env));
      config.Load(PathLayer());
    } else {
      var configDefaults := libs.npaths("config_defaults", None);
      var moduleDefaults := libs.npaths("config_defaults_module", Some(pkg));
      config.Load(Graceful(w.files(configDefaults)));
      config.Load(Graceful(w.files(moduleDefaults)));
    }
  }

  /** `generateRunParameters(pkg)`: loads the layers in order, stops with
      MissingStartScript before any directory is made, and otherwise ensures
      the runtime directories and returns the job. */
  method GenerateRunParameters(pkg: string, w: World, libs: Libs, fs: FileSystem) returns (r: Result<Job, ResolveError>)
    requires HomeSet(w.host)
    modifies fs
    ensures r == Resolve(pkg, w, libs)
    ensures fs.events == old(fs.events) + (if r.Success? then Mkdirs(EnsuredDirs(r.value.env)) else [])
  {
    var config := new Config<Value>();
    var pkgPath := libs.resolve(pkg);

    LoadBaseLayers(config, pkg, w, libs);

    var start := StartScript(libs.modinfo(pkgPath));
    if start.None? {
      return Failure(MissingStartScript);
    }

    assert start == StartOf(pkg, libs);
    var cmds := libs.cmdparse(start.value);
    config.Load(Strings(cmds.envs));
    assert config.layers == BaseLayers(pkg, w, libs) + [Strings(cmds.envs)];

    var ctx := Mappings(w.host, pkg, pkgPath);
    var envs := ExpandConfig(config, ctx, libs.expand);

    EnsureRuntimeDirs(fs, envs);

    r := Success(Job(cmds.exec, cmds.args, pkgPath, envs));
  }

  /** Resolution fails exactly when the package has no (truthy) start script. */
  lemma FailsOnlyWithoutStartScript(pkg: string, w: World, libs: Libs)
    requires HomeSet(w.host)
    ensures Resolve(pkg, w, libs).Failure? <==> StartOf(pkg, libs).None?
    ensures Resolve(pkg, w, libs).Failure? ==> Resolve(pkg, w, libs).error == MissingStartScript
  {
  }

  /** The job runs in the package's path, takes exec and args from the parsed
      start script, and its env holds one entry per configuration key: the
      store's `get(key)` expanded over a context whose root is the package path
      and whose package is the reference. */
  lemma JobFromStartScript(pkg: string, w: World, libs: Libs)
    requires HomeSet(w.host) && StartOf(pkg, libs).Some?
    ensures Resolve(pkg, w, libs).Success?
    ensures var job := Resolve(pkg, w, libs).value;
            var cmd := CommandOf(pkg, libs);
            var layers := BaseLayers(pkg, w, libs) + [Strings(cmd.envs)];
            var ctx := RunContext(pkg, w, libs);
            && job.cwd == libs.resolve(pkg) && job.exec == cmd.exec && job.args == cmd.args
            && ctx.root == job.cwd && ctx.package == pkg && ctx.home == w.host.env["HOME"]
            && job.env.Keys == KeysOf(layers)
            && forall k | k in job.env :: job.env[k] == libs.expand(ctx, Lookup(layers, k).value)
  {
    var cmd := CommandOf(pkg, libs);
    MergedAgrees(BaseLayers(pkg, w, libs) + [Strings(cmd.envs)]);
  }

  /** For a relative reference: every invoking-environment variable is in the
      job's env; VARDIR, TEMPDIR and LOGDIR are the current directory unless
      the invoking environment or the start script set them (the start script
      winning); PATH is the template unless the start script sets it; every
      other key is the expanded value of the start script or, failing that, of
      the invoking environment. */
  lemma RelativeEnvironment(pkg: string, w: World, libs: Libs)
    requires HomeSet(w.host) && IsRelative(pkg) && StartOf(pkg, libs).Some?
    ensures Resolve(pkg, w, libs).Success?
    ensures RelativeEnv(Resolve(pkg, w, libs).value.env, w.host.env, CommandOf(pkg, libs).envs, w.host.cwd,
                        RunContext(pkg, w, libs), libs.expand)
  {
    RelativeMergedEnv(pkg, w, libs);
    RelativeLayersMeaning(w.host.cwd, w.host.env, CommandOf(pkg, libs).envs, RunContext(pkg, w, libs), libs.expand);
  }

  /** What the relative layering promises of a job's env, given the invoking
      environment, the start script's assignments and the current directory. */
  predicate RelativeEnv(env: map<string, string>, invoking: map<string, string>, script: map<string, string>,
                        cwd: string, ctx: Context, expand: (Context, Value) -> string)
  {
    && env.Keys == invoking.Keys + script.Keys + {"VARDIR", "TEMPDIR", "LOGDIR", "PATH"}
    && (forall i | 0 <= i < |RuntimeDirs| ::
          env[RuntimeDirs[i]] == expand(ctx, Str(
            if RuntimeDirs[i] in script then script[RuntimeDirs[i]]
            else if RuntimeDirs[i] in invoking then invoking[RuntimeDirs[i]]
            else cwd)))
    && env["PATH"] == expand(ctx, Str(if "PATH" in script then script["PATH"] else PathTemplate))
    && (forall k | k in script :: env[k] == expand(ctx, Str(script[k])))
    && (forall k | k in invoking && k !in script && k != "PATH" :: env[k] == expand(ctx, Str(invoking[k])))
  }

  /** The four relative layers merged: the start script over PATH over the
      invoking environment over the current-directory defaults. */
  function RelativeMerged(cwd: string, invoking: map<string, string>, script: map<string, string>): map<string, Value> {
    DirDefaults(cwd) + Strings(invoking) + PathLayer() + Strings(script)
  }

  /** The four relative layers, merged and expanded, keep the promises of `RelativeEnv`. */
  lemma RelativeLayersMeaning(cwd: string, invoking: map<string, string>, script: map<string, string>,
                              ctx: Context, expand: (Context, Value) -> string)
    ensures RelativeEnv(Expanded(RelativeMerged(cwd, invoking, script), ctx, expand), invoking, script, cwd, ctx, expand)
  {
    var m := RelativeMerged(cwd, invoking, script);
    var env := Expanded(m, ctx, expand);
    RelativeKeys(cwd, invoking, script);
    forall i | 0 <= i < |RuntimeDirs|
      ensures env[RuntimeDirs[i]] == expand(ctx, Str(
                if RuntimeDirs[i] in script then script[RuntimeDirs[i]]
                else if RuntimeDirs[i] in invoking then invoking[RuntimeDirs[i]]
                else cwd))
    {
      RelativeDirValue(cwd, invoking, script, RuntimeDirs[i]);
    }
    RelativeDirValue(cwd, invoking, script, "PATH");
    forall k | k in script ensures env[k] == expand(ctx, Str(script[k])) {
      RelativeDirValue(cwd, invoking, script, k);
    }
    forall k | k in invoking && k !in script && k != "PATH" ensures env[k] == expand(ctx, Str(invoking[k])) {
      RelativeDirValue(cwd, invoking, script, k);
    }
  }

  lemma RelativeKeys(cwd: string, invoking: map<string, string>, script: map<string, string>)
    ensures RelativeMerged(cwd, invoking, script).Keys == invoking.Keys + script.Keys + {"VARDIR", "TEMPDIR", "LOGDIR", "PATH"}
  {
    assert DirDefaults(cwd).Keys == {"VARDIR", "TEMPDIR", "LOGDIR"};
  }

  /** The merged value of one key, layer by layer from the last. */
  lemma RelativeDirValue(cwd: string, invoking: map<string, string>, script: map<string, string>, k: string)
    requires k in script || k in invoking || k == "PATH" || k in DirDefaults(cwd)
    ensures k in RelativeMerged(cwd, invoking, script)
    ensures RelativeMerged(cwd, invoking, script)[k] ==
      if k in script then Str(script[k])
      else if k == "PATH" then Str(PathTemplate)
      else if k in invoking then Str(invoking[k])
      else Str(cwd)
  {
  }

  /** The relative layers folded: current-directory defaults, then the invoking
      environment, then PATH, then the start script. */
  lemma RelativeMergedEnv(pkg: string, w: World, libs: Libs)
    requires HomeSet(w.host) && IsRelative(pkg) && StartOf(pkg, libs).Some?
    ensures Resolve(pkg, w, libs).Success?
    ensures Resolve(pkg, w, libs).value.env
         == Expanded(RelativeMerged(w.host.cwd, w.host.env, CommandOf(pkg, libs).envs), RunContext(pkg, w, libs), libs.expand)
  {
    var cmd := CommandOf(pkg, libs);
    MergedOfFour(DirDefaults(w.host.cwd), Strings(w.host.env), PathLayer(), Strings(cmd.envs));
    assert BaseLayers(pkg, w, libs) + [Strings(cmd.envs)]
        == [DirDefaults(w.host.cwd), Strings(w.host.env), PathLayer(), Strings(cmd.envs)];
  }

  /** For a global reference: the env keys are exactly those of the system
      defaults, the package defaults and the start script, and each value comes
      from the start script, else the package defaults, else the system defaults. */
  lemma GlobalEnvironment(pkg: string, w: World, libs: Libs)
    requires HomeSet(w.host) && !IsRelative(pkg) && StartOf(pkg, libs).Some?
    ensures Resolve(pkg, w, libs).Success?
    ensures var env := Resolve(pkg, w, libs).value.env;
            var cmd := CommandOf(pkg, libs);
            var ctx := RunContext(pkg, w, libs);
            var system := SystemDefaults(w, libs);
            var own := ModuleDefaults(pkg, w, libs);
            && env.Keys == system.Keys + own.Keys + cmd.envs.Keys
            && forall k | k in env ::
                 env[k] == libs.expand(ctx,
                   if k in cmd.envs then Str(cmd.envs[k])
                   else if k in own then own[k]
                   else system[k])
  {
    var cmd := CommandOf(pkg, libs);
    MergedOfThree(SystemDefaults(w, libs), ModuleDefaults(pkg, w, libs), Strings(cmd.envs));
    assert BaseLayers(pkg, w, libs) + [Strings(cmd.envs)]
        == [SystemDefaults(w, libs), ModuleDefaults(pkg, w, libs), Strings(cmd.envs)];
  }

  /** A global module never sees the invoking environment: changing any
      variable other than HOME, USER and PATH (which only feed the interpolation
      context) leaves the resolution unchanged. */
  lemma GlobalIgnoresInvokingEnv(pkg: string, w: World, libs: Libs, env2: map<string, string>)
    requires HomeSet(w.host) && !IsRelative(pkg)
    requires "HOME" in env2 && env2["HOME"] == w.host.env["HOME"]
    requires EnvVar(w.host, "USER") == EnvVar(w.host.(env := env2), "USER")
    requires EnvVar(w.host, "PATH") == EnvVar(w.host.(env := env2), "PATH")
    ensures Resolve(pkg, w, libs) == Resolve(pkg, w.(host := w.host.(env := env2)), libs)
  {
    var w2 := w.(host := w.host.(env := env2));
    assert RunContext(pkg, w, libs) == RunContext(pkg, w2, libs);
    assert BaseLayers(pkg, w, libs) == BaseLayers(pkg, w2, libs);
  }

  /** A relative module whose start script and invoking environment leave the
      directory variables alone gets all three directories, each the expanded
      current directory, ensured in the order VARDIR, TEMPDIR, LOGDIR. */
  lemma RelativeDirsEnsured(pkg: string, w: World, libs: Libs)
    requires HomeSet(w.host) && IsRelative(pkg) && StartOf(pkg, libs).Some?
    requires forall i | 0 <= i < |RuntimeDirs| :: RuntimeDirs[i] !in w.host.env && RuntimeDirs[i] !in CommandOf(pkg, libs).envs
    requires libs.expand(RunContext(pkg, w, libs), Str(w.host.cwd)) != ""
    ensures Resolve(pkg, w, libs).Success?
    ensures var here := libs.expand(RunContext(pkg, w, libs), Str(w.host.cwd));
            EnsuredDirs(Resolve(pkg, w, libs).value.env) == [here, here, here]
  {
    RelativeEnvironment(pkg, w, libs);
    DirsOfDefaults(Resolve(pkg, w, libs).value.env, w.host.env, CommandOf(pkg, libs).envs, w.host.cwd,
                   RunContext(pkg, w, libs), libs.expand);
  }

  lemma DirsOfDefaults(env: map<string, string>, invoking: map<string, string>, script: map<string, string>,
                       cwd: string, ctx: Context, expand: (Context, Value) -> string)
    requires RelativeEnv(env, invoking, script, cwd, ctx, expand)
    requires forall i | 0 <= i < |RuntimeDirs| :: RuntimeDirs[i] !in invoking && RuntimeDirs[i] !in script
    requires expand(ctx, Str(cwd)) != ""
    ensures var here := expand(ctx, Str(cwd)); EnsuredDirs(env) == [here, here, here]
  {
    assert env["VARDIR"] == env[RuntimeDirs[0]] && "VARDIR" !in invoking && "VARDIR" !in script;
    assert env["TEMPDIR"] == env[RuntimeDirs[1]] && "TEMPDIR" !in invoking && "TEMPDIR" !in script;
    assert env["LOGDIR"] == env[RuntimeDirs[2]] && "LOGDIR" !in invoking && "LOGDIR" !in script;
  }

  /** A string holding no `%{` token. */
  predicate TokenFree(s: string) {
    forall i | 0 <= i < |s| - 1 :: !(s[i] == '%' && s[i + 1] == '{')
  }

  /** Interpolation leaves a string without tokens as it is. */
  ghost predicate KeepsPlainText(expand: (Context, Value) -> string) {
    forall ctx, s | TokenFree(s) :: expand(ctx, Str(s)) == s
  }

  /** The relative scenario: `./svc` whose start script is `node index.js --port 80`;
      with no LOGDIR in the invoking environment, the log directory is the
      current directory. */
  lemma RelativeServiceScenario(w: World, libs: Libs)
    requires HomeSet(w.host)
    requires StartOf("./svc", libs) == Some(Str("node index.js --port 80"))
    requires libs.cmdparse(Str("node index.js --port 80")) == Command("node", ["index.js", "--port", "80"], map[])
    requires "LOGDIR" !in w.host.env
    requires KeepsPlainText(libs.expand) && TokenFree(w.host.cwd)
    ensures Resolve("./svc", w, libs).Success? && "LOGDIR" in Resolve("./svc", w, libs).value.env
    ensures var job := Resolve("./svc", w, libs).value;
            && job.exec == "node" && job.args == ["index.js", "--port", "80"]
            && job.cwd == libs.resolve("./svc")
            && job.env["LOGDIR"] == w.host.cwd
  {
    assert IsRelative("./svc");
    assert CommandOf("./svc", libs).envs == map[];
    RelativeMergedEnv("./svc", w, libs);
    RelativeDirValue(w.host.cwd, w.host.env, map[], "LOGDIR");
  }

  /** The global scenario: system defaults put LOGDIR at /var/log, the worker's
      own defaults at /var/log/worker; the package's value wins. */
  lemma GlobalWorkerScenario(w: World, libs: Libs)
    requires HomeSet(w.host) && StartOf("worker", libs).Some?
    requires w.files(libs.npaths("config_defaults", None)) == Document(map["LOGDIR" := Str("/var/log")])
    requires w.files(libs.npaths("config_defaults_module", Some("worker"))) == Document(map["LOGDIR" := Str("/var/log/worker")])
    requires "LOGDIR" !in CommandOf("worker", libs).envs
    ensures Resolve("worker", w, libs).Success? && "LOGDIR" in Resolve("worker", w, libs).value.env
    ensures Resolve("worker", w, libs).value.env["LOGDIR"] == libs.expand(RunContext("worker", w, libs), Str("/var/log/worker"))
  {
    assert !IsRelative("worker");
    GlobalEnvironment("worker", w, libs);
  }
}
