/** `npkg install PKG` after npm has installed the package: every variable the
    package's manifest declares under `environment` gets an entry in the
    package's defaults file. */
module Install {
  import opened Wrappers
  import opened Text
  import opened Json
  import opened Resolver
  import opened Effects
  import Control

  /** How the npm steps went; npm itself is not part of this model. */
  datatype NpmResult = LoadFailed(reason: string) | InstallFailed(reason: string) | NpmInstalled

  datatype InstallOutcome =
    | NothingToInstall                 // prints 'Install what?'
    | NpmLoadError(reason: string)     // prints 'Error' and the reason
    | NpmInstallError(reason: string)  // prints the reason, exit status -1
    | ManifestUnreadable               // JSON.parse of package.json throws
    | DefaultsWritten(path: string)

  /** `keys` are the decimal indexes `0` to `n - 1`, and nothing else. */
  predicate IndexKeys(keys: set<string>, n: nat) {
    && (forall i | 0 <= i < n :: Decimal(i) in keys)
    && (forall k | k in keys :: IsNumeral(k) && NumeralValue(k) < n)
  }

  function Indexes(n: nat): (keys: set<string>)
    ensures IndexKeys(keys, n)
  {
    set i | 0 <= i < n :: Decimal(i)
  }

  /** `if (envs = pkg_json.environment) Object.keys(envs)`: nothing when the
      property is absent or falsy; an object's own property names; the indexes
      of an array or of a string's characters, in decimal; no keys for `true`
      or a non-zero number. */
  function EnvironmentKeys(manifest: map<string, Value>): (keys: set<string>)
    ensures !("environment" in manifest && Truthy(manifest["environment"])) ==> keys == {}
    ensures "environment" in manifest && manifest["environment"].Object? ==>
              keys == manifest["environment"].fields.Keys
    ensures "environment" in manifest && manifest["environment"].List? ==>
              IndexKeys(keys, |manifest["environment"].items|)
    ensures "environment" in manifest && manifest["environment"].Str? ==>
              IndexKeys(keys, |manifest["environment"].s|)
    ensures "environment" in manifest && (manifest["environment"].Bool? || manifest["environment"].Num?) ==>
              keys == {}
  {
    if "environment" !in manifest then {}
    else
      match manifest["environment"]
      case Object(fields) => fields.Keys
      case List(items) => Indexes(|items|)
      case Str(s) => Indexes(|s|)
      case _ => {}
  }

  /** `"environment": ["PORT"]` declares the key `0`, not `PORT`. */
  lemma ArrayEnvironment()
    ensures EnvironmentKeys(map["environment" := List([Str("PORT")])]) == {"0"}
  {
    assert Decimal(0) == "0";
    assert Indexes(1) == {"0"};
  }

  /** `if (!config[key]) config[key] = null` for every key: a key whose entry is
      missing or falsy becomes null, every other entry stays as it was. */
  method NullFill(config: map<string, Value>, keys: set<string>) returns (filled: map<string, Value>)
    ensures filled.Keys == config.Keys + keys
    ensures forall k | k in keys && (k !in config || !Truthy(config[k])) :: filled[k] == Null
    ensures forall k | k in config && (k !in keys || Truthy(config[k])) :: filled[k] == config[k]
  {
    filled := config;
    var pending := keys;
    while pending != {}
      invariant pending <= keys
      invariant filled.Keys == config.Keys + (keys - pending)
      invariant forall k | k in keys - pending && (k !in config || !Truthy(config[k])) :: filled[k] == Null
      invariant forall k | k in config && (k !in keys - pending || Truthy(config[k])) :: filled[k] == config[k]
      decreases pending
    {
      var key :| key in pending;
      if !(key in filled && Truthy(filled[key])) {
        filled := filled[key := Null];
      }
      pending := pending - {key};
    }
  }

  /** `install(arg)` after the npm steps. */
  method Install(arg: Option<string>, npm: NpmResult, w: World, libs: Libs, fs: FileSystem) returns (out: InstallOutcome)
    requires HomeSet(w.host)
    modifies fs
    ensures Control.Missing(arg) ==> out == NothingToInstall && unchanged(fs)
    ensures !Control.Missing(arg) && npm.LoadFailed? ==> out == NpmLoadError(npm.reason) && unchanged(fs)
    ensures !Control.Missing(arg) && npm.InstallFailed? ==> out == NpmInstallError(npm.reason) && unchanged(fs)
    ensures !Control.Missing(arg) && npm.NpmInstalled? ==>
      var home := w.host.env["HOME"];
      var manifest := w.files(libs.join(libs.join(libs.join(home, "lib/node_modules"), arg.value), "package.json"));
      var dir := libs.join(libs.join(home, "etc"), arg.value);
      var path := libs.join(dir, "defaults.json");
      if manifest.Unreadable? then out == ManifestUnreadable && unchanged(fs)
      else
        var config := Graceful(w.files(path));
        var keys := EnvironmentKeys(manifest.fields);
        && out == DefaultsWritten(path)
        && |fs.events| == |old(fs.events)| + 2
        && fs.events[..|old(fs.events)|] == old(fs.events)
        && fs.events[|old(fs.events)|] == Made(dir)
        && fs.events[|old(fs.events)| + 1].Wrote?
        && var written := fs.events[|old(fs.events)| + 1].write;
           && written.path == path
           && written.contents.Keys == config.Keys + keys
           && (forall k | k in keys && (k !in config || !Truthy(config[k])) :: written.contents[k] == Null)
           && (forall k | k in config && (k !in keys || Truthy(config[k])) :: written.contents[k] == config[k])
  {
    if Control.Missing(arg) {
      return NothingToInstall;
    }
    match npm
    case LoadFailed(reason) =>
      return NpmLoadError(reason);
    case InstallFailed(reason) =>
      return NpmInstallError(reason);
    case NpmInstalled =>
      var home := w.host.env["HOME"];
      var manifest := w.files(libs.join(libs.join(libs.join(home, "lib/node_modules"), arg.value), "package.json"));
      if manifest.Unreadable? {
        return ManifestUnreadable;
      }
      var dir := libs.join(libs.join(home, "etc"), arg.value);
      var path := libs.join(dir, "defaults.json");
      var config := Graceful(w.files(path));
      config := NullFill(config, EnvironmentKeys(manifest.fields));
      fs.Mkdirp(dir);
      fs.WriteJson(path, config);
      out := DefaultsWritten(path);
  }
}
