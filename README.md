# npkg: a verified model of the command-line controller

`npkg` is the NodeOS package controller. It runs an npm-installed package as a
foreground child (`run`) or hands it to the init supervisor as a service
(`start`). It manages the package's JSON defaults files (`config get|set|rm|cat|
list|gen`) and seeds them on `install`. Everything in this model is in
`npkg.js`.

The core of the program is the job resolver `generateRunParameters`. It
classifies a package reference as relative (starts with `.` or `/`) or global.
It then loads a stack of configuration layers: for a relative reference, the
current-directory defaults, the invoking environment and the PATH template;
for a global one, the system defaults file and the package's own defaults
file. It parses the start script and loads that script's environment
assignments on top. It expands every value against an interpolation context,
ensures the VARDIR, TEMPDIR and LOGDIR directories exist, and returns the job
record `{exec, args, cwd, env}`.

The model is organised as follows:

- `wrappers.dfy`: `Option` and `Result`.
- `json.dfy`: JSON values, JavaScript truthiness, `graceful` (a file that cannot be
  read or parsed is `{}`), and `process.env` as a layer of strings.
- `text.dfy`: `String.prototype.split` on one character, `trim`, the
  ECMAScript white-space class, and non-negative integers written in decimal
  (the keys `Object.keys` gives for an array or a string).
- `layers.dfy`: the layered configuration object of `lib-config`. It is a `Config` class whose
  `Load` appends a layer, with three connected readings of the stack:
  - `KeysOf`: the union of every layer's keys;
  - `Lookup`: the value from the most recent layer that defines the key;
  - `Merged`: the right-biased fold.
- `effects.dfy`: a `FileSystem` object that keeps one log of every `mkdirp` and every JSON
  file write, in the order requested, so a contract can say that a write follows
  the `mkdirp` of its directory.
- `resolver.dfy`: `is_relative`, `mappings`, the layer stacks, the specification
  function `Resolve` and the imperative `GenerateRunParameters` proved against
  it, plus the properties of relative and global resolution.
- `control.dfy`: `run` (empty target, exit status 51 for a signalled child) and
  `start` (empty target, the request sent to the supervisor, the status switch).
- `config_command.dfy`: the `config` subcommands, including `gen`. `gen` builds its
  own layer stack and calls `mappings(root, pkg_path)` with the arguments
  swapped.
- `install.dfy`: `install` after npm has run, mainly the null-fill of the package's
  `environment` keys.
- `npmrc.dfy`: the `.npmrc` reader `config(path)`, both as written and as evidently
  intended (see Findings).

Calls into libraries whose code is not part of this model are function-valued
fields of `Resolver.Libs`:
- `lib-npkg-resolve`
- `lib-modinfo`
- `lib-cmdparse`
- the `expand` of `lib-interpolate`
- `lib-npkg-paths`
- `path.join` and `path.resolve`
- the module hash

The contents of the JSON files the program reads are a function from path to
`Json.FileRead`. Configuration layers hold JSON values rather than strings,
because a defaults file can hold any JSON value (`install` writes `null`);
`process.env` and the start script's assignments are layers of strings. The invoking process (environment, working directory, host
name, temporary directory) is `Resolver.Host`. The program joins
`process.env.HOME` with a path when it loads, and `path.join` throws on
`undefined`. So every command starts with HOME set, which the operations take
as `HomeSet`.

The model follows the code in these places, where its comments or its
documentation suggest otherwise:
- `config gen` loads the invoking environment before `{PATH, LOGDIR}`, so its
  LOGDIR is always the current directory, whereas a run lets the environment
  override LOGDIR (`ConfigCommand.RunAndGenLogDir`).
- `config gen` interpolates with package = $HOME and root = the package path.
- `start` fails when the resolved env has no LOGDIR, because `path.join` throws
  on `undefined` (`Control.StartError.NoLogDir`).
- `config rm` without a key deletes the property named `"undefined"`.
- `config set KEY` with no `=` and no value assigns `undefined`, which
  `JSON.stringify` then drops.
- A relative job's VARDIR, TEMPDIR and LOGDIR default to the working directory
  of the invoking process, `process.cwd()`, and not to the job's own `cwd`
  (the resolved package path).
- A 400 reply to `start` prints the failure message and then still prints
  `started :` with the key and `logfile :` with the log path
  (`Control.HandleResponse`).
- The error for a missing start script does not name the package: `Error`
  does not format its arguments (`Resolver.ResolveError`).

## Model

| member | source | states |
|---|---|---|
| Json.Graceful | npkg.js:58-69 | a file that cannot be read or parsed gives the empty object; otherwise the parsed object itself |
| Json.Strings | npkg.js:162 | loading `process.env` gives a layer with the same keys, each value the same string |
| Text.SplitOn | npkg.js:350-351 | `split` on one character: at least one part, no part contains the separator, joining the parts back gives the input, and there is one part exactly when the separator does not occur |
| Text.TrimStart | npkg.js:350-351 | leading white space removed: the result is a suffix of the input preceded only by white space and does not start with white space |
| Text.TrimEnd | npkg.js:350-351 | trailing white space removed: the result is a prefix of the input followed only by white space and does not end with white space |
| Text.Trim | npkg.js:350-351 | `trim()`: the result neither starts nor ends with white space |
| Text.TrimSurrounded | npkg.js:350-351 | `trim()` removes the white space at both ends and nothing else: the result occurs in the input with only white space before and after it |
| Text.Decimal | npkg.js:402 | `String(n)` is a decimal numeral (digits only, no leading zero) that reads back as `n` |
| Text.TrimmedAlready | npkg.js:350-351 | a string with no white space at either end is its own trim |
| Text.SplitWithout | npkg.js:350-351 | splitting on a character the string lacks gives the string alone |
| Layers.Lookup | npkg.js:207 | `config.get(key)` answers exactly for the keys some layer defines |
| Layers.MergedAppend | npkg.js:151-193 | loading one more layer overrides the merge of the earlier ones and adds its keys |
| Layers.KeysOfUnion | npkg.js:204 | `config.keys()` holds a key exactly when some loaded layer defines it |
| Layers.MergedAgrees | npkg.js:204-208 | the fold of the layers has exactly the store's keys, and each value is what `get` returns |
| Layers.LastDefinerWins | npkg.js:160-162 | a key takes the value of the last layer that defines it; later layers that leave it out do not change it |
| Layers.LookupFindsLastDefiner | npkg.js:207 | for a key the store holds, `get` returns the value of the last loaded layer that defines it |
| Layers.Config.Keys | npkg.js:204 | `config.keys()` holds every key some loaded layer defines, and no other |
| Layers.Config.Get | npkg.js:207 | `config.get(key)` is the value given by the last loaded layer that defines the key |
| Layers.Config.Load | npkg.js:151-193 | `config.load(layer)` appends the layer to the stack and changes nothing else |
| Effects.FileSystem.Mkdirp | npkg.js:215-217 | each `mkdirp` is appended to the log of requests, after everything requested before it; nothing else is logged |
| Effects.FileSystem.WriteJson | npkg.js:411 | each JSON file write is appended to the log of requests, after everything requested before it; nothing else is logged |
| Resolver.Mappings | npkg.js:71-81 | the interpolation context: HOME, USER and PATH from the invoking environment (USER and PATH undefined when unset), the given root and package, the host name and the temporary directory |
| Resolver.IsRelative | npkg.js:91-93 | a reference is relative exactly when its first character is `.` or `/`; the empty reference has no first character and is global |
| Resolver.RelativeByPrefix | npkg.js:91-93 | a reference is relative exactly when it starts with `.` or `/`; the empty reference is global |
| Resolver.StartScript | npkg.js:182-185 | a start script is found exactly when the manifest is an object whose `scripts` is an object holding a truthy `start`, and it is that `start` value |
| Resolver.Expanded | npkg.js:203-208 | the expanded environment has exactly the configuration's keys |
| Resolver.EnsuredDirsExactly | npkg.js:215-217 | a directory is ensured exactly when it is the non-empty value of VARDIR, TEMPDIR or LOGDIR; at most three are ensured, VARDIR's first and LOGDIR's last |
| Resolver.ExpandConfig | npkg.js:203-208 | the env loop yields, for every configuration key, the expanded value of the merged layers |
| Resolver.EnsureDir | npkg.js:215-217 | one directory is made when the variable is set to a non-empty value, none otherwise, and nothing is written |
| Resolver.EnsureRuntimeDirs | npkg.js:215-217 | the directories are made in the order VARDIR, TEMPDIR, LOGDIR, each only when its value is non-empty, and nothing is written |
| Resolver.LoadBaseLayers | npkg.js:147-179 | a relative reference loads the current-directory defaults, the environment and PATH; a global one loads the system defaults, then the package's defaults |
| Resolver.GenerateRunParameters | npkg.js:130-229 | the job is `Resolve` of the inputs; the runtime directories are ensured in order only on success; no file is written |
| Resolver.FailsOnlyWithoutStartScript | npkg.js:182-185 | resolution fails exactly when the package has no truthy start script, and the error is the missing-start-script error |
| Resolver.JobFromStartScript | npkg.js:188-228 | the job runs in the resolved path with exec and args from the start script; its env has the store's keys, each the expanded `get`, in a context whose root is the path and whose package is the reference |
| Resolver.RelativeEnvironment | npkg.js:147-168 | relative reference: every environment variable is kept; the directories default to the current directory; PATH is the template; the start script overrides everything |
| Resolver.RelativeLayersMeaning | npkg.js:151-168 | the four relative layers, merged and expanded, meet the relative-environment promises |
| Resolver.RelativeKeys | npkg.js:151-168 | the relative merge's keys are the environment's, the start script's, the three directories and PATH |
| Resolver.RelativeDirValue | npkg.js:151-168 | each relative key's value comes from the start script, else PATH's template, else the environment, else the current directory |
| Resolver.RelativeMergedEnv | npkg.js:151-193 | a relative job's env is the four layers merged in order and expanded |
| Resolver.GlobalEnvironment | npkg.js:169-179 | global reference: the keys are those of both defaults files and the start script; the start script wins over the package defaults, which win over the system defaults |
| Resolver.GlobalIgnoresInvokingEnv | npkg.js:169-179 | a global job does not depend on the invoking environment apart from HOME, USER and PATH in the interpolation context |
| Resolver.RelativeDirsEnsured | npkg.js:151-158 | with no directory variable set, a relative job ensures the expanded current directory three times, in the order VARDIR, TEMPDIR, LOGDIR |
| Resolver.DirsOfDefaults | npkg.js:215-217 | the three ensured directories of an env that meets the relative-environment promises with the directory variables unset |
| Resolver.RelativeServiceScenario | npkg.js:147-168 | `./svc` with start script `node index.js --port 80` runs `node` with those arguments, and its LOGDIR is the current directory |
| Resolver.GlobalWorkerScenario | npkg.js:174-178 | a global worker whose own defaults set LOGDIR overrides the system defaults' LOGDIR |
| Control.ExitStatus | npkg.js:248 | the child's exit code is returned as it is; a child without an exit code (signalled) gives 51 |
| Control.ExitStatusSentinel | npkg.js:244-248 | status 51 means a signal or a child that exited with 51; any other status is the child's own code |
| Control.Run | npkg.js:231-249 | an empty target runs nothing; a failed resolution is reported; otherwise the process exits with the child's status and the job's directories were ensured |
| Control.LogPath | npkg.js:258 | the log file exists exactly when the env has LOGDIR, and is `<key>.log` joined to LOGDIR |
| Control.BuildRequest | npkg.js:256-283 | a request exists exactly when the env has LOGDIR; it carries the job unchanged, both streams go to `LOGDIR/<key>.log`, and `stdio=stream` is set exactly when attaching |
| Control.Start | npkg.js:252-308 | an empty target starts nothing; a failed resolution or a missing LOGDIR is an error; otherwise the request for the resolved job under the module hash is submitted |
| Control.StatusMessage | npkg.js:288-297 | 201 means started, 400 means failed, and anything else is an unknown response |
| Control.HandleResponse | npkg.js:285-306 | a transport error is reported as an error; a reply is reported with its status message, the key and the log file |
| ConfigCommand.ParseSubcommand | npkg.js:463-565 | each subcommand is selected exactly by its name or its aliases |
| ConfigCommand.ConfigDir | npkg.js:434-436 | the configuration directory is `$HOME/etc`, or `$HOME/etc/<name>` when a name is given |
| ConfigCommand.ConfigPath | npkg.js:437 | the configuration file is `defaults.json` inside the configuration directory |
| ConfigCommand.SplitAssignment | npkg.js:477-481 | `KEY=VAL`: the key is the text before the first `=`, the value the text up to the next `=` or the end, and there is no value when there is no `=` |
| ConfigCommand.JoinPrefix | npkg.js:478-480 | a joined sequence starts with its first part, then the separator if more parts follow |
| ConfigCommand.Assigned | npkg.js:483-484 | `set` changes only the given key: it is bound to the value, or dropped when the value is undefined |
| ConfigCommand.Removed | npkg.js:560-561 | `rm` removes exactly the given key and keeps every other entry |
| ConfigCommand.GetLine | npkg.js:466-468 | `get` prints an empty line exactly when the key is absent, and the stored value otherwise |
| ConfigCommand.Generate | npkg.js:497-557 | `gen` prints a blank line for a global module, then the expanded merge of its own layer stack, with the swapped context |
| ConfigCommand.GenPackagePath | npkg.js:519-540 | `gen`'s package path is the reference resolved against the current directory when relative, and the reference inside `$HOME/lib/node_modules` when global |
| ConfigCommand.GenRelative | npkg.js:519-534 | for a relative module `gen` prints every environment variable, with PATH the template and LOGDIR the current directory whatever the environment says |
| ConfigCommand.GenGlobalLayers | npkg.js:536-545 | for a global module `gen` reads the same two defaults files as a run |
| ConfigCommand.RunAndGenLogDir | npkg.js:530-533 | with LOGDIR in the environment, a run of a relative module uses the environment's value while `gen` uses the current directory |
| ConfigCommand.GenContextSwapped | npkg.js:551 | `gen`'s context has package = $HOME and root = its own package path, while a run's has package = the reference and root = the resolved path |
| ConfigCommand.ConfigMain | npkg.js:424-566 | each subcommand's output and file effects: `get`, `cat` and `list` only read; `set` makes the directory and then writes the assigned file; `rm` only writes the file without the key; a missing key or an unknown subcommand prints the usage |
| Install.EnvironmentKeys | npkg.js:401-402 | the declared keys: none when `environment` is absent or falsy; an object's property names; the decimal indexes `0` to `n - 1` of an array or a string of length `n`; none for `true` or a non-zero number |
| Install.Indexes | npkg.js:402 | the decimal numerals of `0` to `n - 1`, and no other key |
| Install.ArrayEnvironment | npkg.js:401-402 | `"environment": ["PORT"]` declares the key `0` |
| Install.NullFill | npkg.js:401-405 | every declared key that is missing or falsy becomes null; every other entry keeps its value; no other key appears |
| Install.Install | npkg.js:362-413 | an empty target, an npm load error, an npm install error or an unreadable manifest requests nothing of the file system; otherwise exactly two requests follow, in order: the `mkdirp` of the package's configuration directory, then the rewrite of its defaults file, null-filled |
| Npmrc.Lines | npkg.js:350 | the lines are the pieces of the trimmed text between its line feeds, in order, none containing a line feed |
| Npmrc.SegmentsOfLine | npkg.js:351 | a line's segments are the pieces of the trimmed line between its `=` signs, in order, each with exactly its surrounding white space removed: it sits in its piece with only white space around it and has no white space at either of its own ends; none contains `=` |
| Npmrc.PiecesTrimmed | npkg.js:351 | trimming pieces that lack a character leaves, piece by piece, a stretch surrounded only by white space that lacks it too |
| Npmrc.ReadFileSync | npkg.js:349 | a missing file throws; otherwise the result is a decoded string exactly when an encoding is given, and a Buffer otherwise |
| Npmrc.LinesOf | npkg.js:350 | `trim` succeeds exactly on a string; on a Buffer it throws |
| Npmrc.ReadConfig | npkg.js:346-359 | whatever throws before the loop leaves the empty object; a file read with an encoding goes through the loop as written, binding every assigned key to undefined |
| Npmrc.ReadAsWritten | npkg.js:346-359 | as written, with no encoding, the reader returns the empty object for every file, readable or not |
| Npmrc.ParseAsWritten | npkg.js:350-354 | as written, the line loop binds exactly the assigned keys, every one to undefined |
| Npmrc.CopyLines | npkg.js:350-354 | the line loop as written, over already split lines |
| Npmrc.CopyLine | npkg.js:351-353 | one line as written: the key is added when the line has two segments, with an undefined value |
| Npmrc.ParseIntended | npkg.js:350-354 | corrected: the result is the merge of the per-line assignments, so later lines override earlier ones |
| Npmrc.AssignLines | npkg.js:350-354 | the corrected line loop over already split lines |
| Npmrc.IntendedStep | npkg.js:351-353 | one corrected line adds its assignment as a new top layer |
| Npmrc.ReadDecoded | npkg.js:346-359 | corrected reader: the file is read as text and parsed; an unreadable file gives the empty object |
| Npmrc.IntendedLastAssignmentWins | npkg.js:350-354 | corrected: a key is bound to the right-hand side of the last line that assigns it, and the keys are the assigned ones |
| Npmrc.AssignmentFileExample | npkg.js:346-359 | the file holding the bytes `a=b`: the reader as written gives `{}`, the corrected reader `{a: "b"}`, and reading with an encoding but the loop as written gives `{a: undefined}` |
| Npmrc.AssignmentLineExample | npkg.js:350-353 | the file `a=b` is one line with segments `a` and `b`; the corrected reader gives `{a: "b"}` and the loop as written gives `{a: undefined}` |
| Npmrc.LineLayersStep | npkg.js:350 | the lines are processed in order, one layer per line |
| Npmrc.LineLayersIndex | npkg.js:350 | the layer of the i-th line is the i-th layer |

## Left out

- The HTTP client of the init supervisor (`api.js`), DEBUG request logging, and the `stop`, `attach`, `list` and `status` commands: they only forward to that client and print its answers.
- `show` and the usage text: they only print.
- Spawning the child and piping standard streams: `Control.Run` takes the child's exit code as a parameter.
- The npm invocation in `install` and the application of the `.npmrc` settings to npm: npm is not part of this model. `Install.Install` takes npm's outcome as a parameter, so the `.npmrc` reader's result is used by nothing in the model.
- `lib-npkg-resolve`, `lib-modinfo`, `lib-cmdparse`, `lib-interpolate`, `lib-npkg-paths`, `path.join`, `path.resolve` and the module hash are not part of this model. They are opaque functions in `Resolver.Libs` without properties: path normalisation and the `%{name}` token grammar are not modelled.
- Output order: configuration keys are a set, so the order in which `cat`, `list` and `gen` print lines, and the order of a job's env, is not modelled.
- Prototype properties: `config get constructor` and similar lookups that JavaScript resolves on `Object.prototype` are treated as absent keys.
- Fractional JSON numbers: `Json.Value` has integers only.
- Non-string command-line words: optimist's numeric parsing of arguments and a `--name` given more than once are not modelled; every word is a string or absent.
- A package manifest whose top level is not an object, and a defaults file whose top-level JSON is not an object: both are treated as unreadable.
- Throwing on a missing HOME at load time: the operations require HOME to be set instead of modelling the crash.
- The top-level dispatch `controller[command](target)`: each command is its own method.
- Install.EnvironmentKeys: `Object.keys` on a string throws in ECMAScript 5 engines; the model follows ECMAScript 2015 and later, which give the indexes. A string's indexes are counted per character rather than per UTF-16 code unit.
- Decoding UTF-8: `Npmrc.ReadFileSync` takes the decoding as a parameter.
- A `lib-modinfo` that throws (a malformed manifest): `Resolver.Libs.modinfo` gives no manifest instead, so the model reports the missing-start-script error where the program would propagate the library's exception.
- ConfigCommand.ConfigMain: file writes are assumed to succeed, and which directories exist is not modelled. `rm` writes the defaults file without making its directory first (unlike `set`), so for a name whose `$HOME/etc/<name>` does not exist the program throws ENOENT and exits, where the model records the write.
- Effects.FileSystem.Mkdirp and Effects.FileSystem.WriteJson always succeed. In the program, a directory that cannot be made in `generateRunParameters` (npkg.js:215-217) ends `run` and `start` with that exception, so nothing is spawned or submitted; the model goes on to `Control.Run`'s `Exited` and `Control.Start`'s `Submitted` or `NoLogDir`.
- Install.Install: a `mkdirp` or a write of the defaults file that fails (npkg.js:409-411) ends `install` with that exception; the model reports `DefaultsWritten`.
- Resolver.Libs: the functions other than `modinfo` never throw. A throw from `lib-npkg-resolve`, `lib-cmdparse` or `lib-interpolate` ends the command with that exception, where the model resolves, spawns or submits.
- Install.Install: the throw when `JSON.parse` of the manifest fails is the outcome `ManifestUnreadable`, and the rest of the command does not run.

## Findings

| source | as written | input that shows it | evidently intended | confidence | as-written member | corrected member |
|---|---|---|---|---|---|---|
| npkg.js:349-350 | `fs.readFileSync(path)` without an encoding returns a Buffer; Buffer has no `trim`, the `TypeError` is swallowed by the catch, and the reader returns `{}` for every file | any readable `~/.npmrc`, e.g. one holding `a=b` (Npmrc.AssignmentFileExample) | read the file as UTF-8 text and parse its lines | high, not executed | Npmrc.ReadAsWritten | Npmrc.ReadDecoded |
| npkg.js:353 | `configs[split[0]] = configs[split[1]]` looks the right-hand side up as a key, so every assigned key gets `undefined` | the text `a=b` gives `{a: undefined}` (Npmrc.AssignmentLineExample) | `configs[split[0]] = split[1]`, giving `{a: "b"}` | high, not executed | Npmrc.ParseAsWritten | Npmrc.ParseIntended |
