/** The `run` and `start` commands: what the direct runner exits with, the
    start request sent to the supervisor and how its response is reported. */
module Control {
  import opened Wrappers
  import opened Resolver
  import opened Effects

  /** A command-line target, falsy when absent or empty. */
  predicate Missing(target: Option<string>) {
    target.None? || target.value == ""
  }

  /** The sentinel exit status for a child that died by a signal ("51gnal"). */
  const SignalExit := 51

  /** `code === null ? 51 : code`: `None` is a child without an exit code. */
  function ExitStatus(code: Option<int>): (status: int)
    ensures code.Some? ==> status == code.value
    ensures code.None? ==> status == SignalExit
  {
    if code.None? then SignalExit else code.value
  }

  /** The status 51 is ambiguous only for a child that itself exits with 51;
      every other status is the child's own exit code. */
  lemma ExitStatusSentinel(code: Option<int>)
    ensures ExitStatus(code) == 51 <==> code == None || code == Some(51)
    ensures ExitStatus(code) != 51 ==> code == Some(ExitStatus(code))
  {
  }

  datatype RunOutcome =
    | NothingToRun                    // throws 'Run what (try: npkg show)?'
    | RunFailed(error: ResolveError)  // generateRunParameters threw
    | Exited(job: Job, status: int)   // the process exits with `status`

  /** `run(pkg)`: `childCode` is what the spawned child reported on exit. */
  method Run(target: Option<string>, childCode: Option<int>, w: World, libs: Libs, fs: FileSystem) returns (r: RunOutcome)
    requires HomeSet(w.host)
    modifies fs
    ensures Missing(target) ==> r == NothingToRun && fs.events == old(fs.events)
    ensures !Missing(target) ==>
      match Resolve(target.value, w, libs)
      case Failure(e) => r == RunFailed(e) && fs.events == old(fs.events)
      case Success(job) =>
        r == Exited(job, ExitStatus(childCode)) && fs.events == old(fs.events) + Mkdirs(EnsuredDirs(job.env))
  {
    if Missing(target) {
      return NothingToRun;
    }
    var run := GenerateRunParameters(target.value, w, libs, fs);
    match run
    case Failure(e) =>
      r := RunFailed(e);
    case Success(job) =>
      r := Exited(job, ExitStatus(childCode));
  }

  /** Where a supervised job's standard output and error go. */
  datatype Stdio = Stdio(stdout: string, stderr: string)

  /** The job stanza sent to the supervisor. */
  datatype RunRequest = RunRequest(exec: string, args: seq<string>, cwd: string, env: map<string, string>, stdio: Stdio)

  /** `init_api.start(key, job, options, …)`. */
  datatype StartRequest = StartRequest(key: string, job: RunRequest, options: seq<string>)

  const StreamOption := "stdio=stream"

  /** `path.join(run.env.LOGDIR, key + '.log')`; `path.join` throws on an undefined LOGDIR. */
  function LogPath(env: map<string, string>, key: string, libs: Libs): (path: Option<string>)
    ensures path.Some? <==> "LOGDIR" in env
    ensures path.Some? ==> path.value == libs.join(env["LOGDIR"], key + ".log")
  {
    if "LOGDIR" in env then Some(libs.join(env["LOGDIR"], key + ".log")) else None
  }

  /** The start request for a resolved job: the job itself, both standard
      streams into `LOGDIR/<key>.log`, and the streaming option exactly when attaching. */
  function BuildRequest(job: Job, key: string, attach: bool, libs: Libs): (r: Option<StartRequest>)
    ensures r.Some? <==> "LOGDIR" in job.env
    ensures r.Some? ==>
      && r.value.key == key
      && r.value.job.exec == job.exec && r.value.job.args == job.args
      && r.value.job.cwd == job.cwd && r.value.job.env == job.env
      && r.value.job.stdio.stdout == r.value.job.stdio.stderr == libs.join(job.env["LOGDIR"], key + ".log")
      && (StreamOption in r.value.options <==> attach)
      && (forall i | 0 <= i < |r.value.options| :: r.value.options[i] == StreamOption)
      && |r.value.options| <= 1
  {
    match LogPath(job.env, key, libs)
    case None => None
    case Some(log) =>
      var options := if attach then [StreamOption] else [];
      Some(StartRequest(key, RunRequest(job.exec, job.args, job.cwd, job.env, Stdio(log, log)), options))
  }

  datatype StartError = Unresolved(error: ResolveError) | NoLogDir

  datatype StartOutcome =
    | NothingToStart                   // prints 'Start what?'
    | StartFailed(error: StartError)
    | Submitted(request: StartRequest)

  /** `start(pkg)` up to the request handed to the supervisor client. */
  method Start(target: Option<string>, attach: bool, w: World, libs: Libs, fs: FileSystem) returns (r: StartOutcome)
    requires HomeSet(w.host)
    modifies fs
    ensures Missing(target) ==> r == NothingToStart && fs.events == old(fs.events)
    ensures !Missing(target) ==>
      match Resolve(target.value, w, libs)
      case Failure(e) => r == StartFailed(Unresolved(e)) && fs.events == old(fs.events)
      case Success(job) =>
        && fs.events == old(fs.events) + Mkdirs(EnsuredDirs(job.env))
        && r == match BuildRequest(job, libs.hash(target.value), attach, libs)
                case None => StartFailed(NoLogDir)
                case Some(request) => Submitted(request)
  {
    if Missing(target) {
      return NothingToStart;
    }
    var run := GenerateRunParameters(target.value, w, libs, fs);
    if run.Failure? {
      return StartFailed(Unresolved(run.error));
    }
    var key := libs.hash(target.value);
    var request := BuildRequest(run.value, key, attach, libs);
    r := if request.None? then StartFailed(NoLogDir) else Submitted(request.value);
  }

  const FailedMessage := "Failed to Start Service"
  const StartedMessage := "Started Service"
  const UnknownMessage := "Unknown Response"

  /** The supervisor's reply to a start request, classified. */
  function StatusMessage(statusCode: int): (m: string)
    ensures m == StartedMessage <==> statusCode == 201
    ensures m == FailedMessage <==> statusCode == 400
    ensures m == UnknownMessage <==> statusCode != 201 && statusCode != 400
  {
    match statusCode
    case 400 => FailedMessage
    case 201 => StartedMessage
    case _ => UnknownMessage
  }

  datatype Response = TransportError(reason: string) | Reply(statusCode: int)

  datatype Report =
    | ErrorReport(reason: string)                              // 'Error', err
    | Replied(message: string, started: string, logfile: string) // message, then key and log path once the reply ends

  /** `handle_response(err, res)`. */
  function HandleResponse(response: Response, key: string, log: string): (report: Report)
    ensures response.TransportError? <==> report.ErrorReport?
    ensures response.Reply? ==> report.started == key && report.logfile == log
    ensures response.Reply? ==> report.message == StatusMessage(response.statusCode)
  {
    match response
    case TransportError(reason) => ErrorReport(reason)
    case Reply(code) => Replied(StatusMessage(code), key, log)
  }
}
