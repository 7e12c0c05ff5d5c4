/** The Terraform command runner: a command runs inside the project
    directory, exit code 2 is read as a timeout, and any other failure runs
    `terraform init` and retries the command once. The process table and
    the working directory of the process are an `Os` object whose runs are
    answered by a script (the n-th process started gets `script(n)`). */
module Terraform {
  import opened Wrappers
  import opened PyStr

  const TimeoutReturnCode := 2
  const DefaultTimeout: nat := 300
  const InitCommand: seq<string> := ["terraform", "init"]
  const ProfileVariable := "AWS_PROFILE"

  /** How one started process ends: it exits with a code and captured
      output, it outlives the timeout, or it cannot be started at all
      (missing executable, empty argument list). */
  datatype Outcome = Exited(code: int, stdout: string, stderr: string) | TimedOut | Refused

  /** `subprocess.CompletedProcess`; the one built for a timeout carries
      no captured output. */
  datatype Completed = Completed(returncode: int, stdout: Option<string>, stderr: Option<string>)

  /** An exception that leaves `run_command`: `None.decode(...)`
      (AttributeError) or a process that could not be started. */
  datatype Fault = NoneDecoded | LaunchError

  /** The dictionary `run_command` returns. */
  datatype Reply = Reply(success: bool, data: string)

  type Answer = Result<Reply, Fault>

  /** One process start as the operating system saw it. */
  datatype Invocation = Invocation(argv: seq<string>, cwd: string, env: map<string, string>, timeout: nat)

  /** `os.chdir(path)` seen from `cwd` (no normalisation of `..`). */
  function Resolve(cwd: string, path: string): (r: string)
    ensures path == "." ==> r == cwd
    ensures path != "." && path != [] && path[0] == '/' ==> r == path
    ensures path != "." && (path == [] || path[0] != '/') ==> EndsWith(r, path)
  {
    if path == "." then cwd
    else if path != [] && path[0] == '/' then path
    else PathJoin(cwd, path)
  }

  predicate Truthy(profile: Option<string>) {
    profile.Some? && profile.value != ""
  }

  /** The environment a runner passes to its processes: a copy of the
      process environment with `AWS_PROFILE` set when a non-empty profile
      is given, and nothing else changed. */
  function EnvFor(environ: map<string, string>, profile: Option<string>): (env: map<string, string>)
    ensures forall k :: k != ProfileVariable ==> (k in env <==> k in environ)
    ensures forall k :: k != ProfileVariable && k in environ ==> env[k] == environ[k]
    ensures Truthy(profile) ==> ProfileVariable in env && env[ProfileVariable] == profile.value
    ensures !Truthy(profile) ==> env == environ
  {
    if Truthy(profile) then environ[ProfileVariable := profile.value] else environ
  }

  /** What `_run` hands back for an outcome: the timeout becomes a
      completed process with code 2 and no output; a process that could
      not be started raises. */
  function Completion(o: Outcome): (r: Result<Completed, Fault>)
    ensures o.Refused? <==> r == Err(LaunchError)
    ensures o.TimedOut? ==> r == Ok(Completed(TimeoutReturnCode, None, None))
    ensures o.Exited? ==> r == Ok(Completed(o.code, Some(o.stdout), Some(o.stderr)))
  {
    match o
    case Exited(code, out, err) => Ok(Completed(code, Some(out), Some(err)))
    case TimedOut => Ok(Completed(TimeoutReturnCode, None, None))
    case Refused => Err(LaunchError)
  }

  function TimeoutMessage(directory: string, timeout: nat): string {
    directory + " - Ran out of default time of " + NatToString(timeout) + "s"
  }

  function FailureMessage(directory: string, stderr: string): string {
    directory + " - " + stderr
  }

  /** The tail of `run_command` once the final result is known. */
  function Report(directory: string, c: Completed): Answer {
    if c.returncode != 0 then
      (if c.stderr.None? then Err(NoneDecoded) else Ok(Reply(false, FailureMessage(directory, c.stderr.value))))
    else
      (if c.stdout.None? then Err(NoneDecoded) else Ok(Reply(true, c.stdout.value)))
  }

  /** The exit code a completion reports (a process that could not be
      started has none; it reads as 0 here and is never consulted). */
  function Code(o: Outcome): int {
    match o
    case Exited(code, _, _) => code
    case TimedOut => TimeoutReturnCode
    case Refused => 0
  }

  /** How many processes one `run_command` starts, given how the first
      run and `terraform init` end. */
  function Attempts(first: Outcome, init: Outcome): (n: nat)
    ensures 1 <= n <= 3
  {
    if first.Refused? || Code(first) == 0 || Code(first) == TimeoutReturnCode then 1
    else if init.Refused? || Code(init) != 0 then 2
    else 3
  }

  /** The processes one `run_command` starts: the command, then possibly
      `terraform init`, then possibly the command again. */
  function Trace(cmd: seq<string>, cwd: string, env: map<string, string>, timeout: nat,
                 first: Outcome, init: Outcome): (t: seq<Invocation>)
    ensures |t| == Attempts(first, init)
    ensures forall i :: 0 <= i < |t| ==> t[i].cwd == cwd && t[i].env == env && t[i].timeout == timeout
  {
    var n := Attempts(first, init);
    [Invocation(cmd, cwd, env, timeout)]
    + (if n >= 2 then [Invocation(InitCommand, cwd, env, timeout)] else [])
    + (if n == 3 then [Invocation(cmd, cwd, env, timeout)] else [])
  }

  /** What `run_command` returns (or raises), given how the first run,
      `terraform init` and the retry end. */
  function Verdict(directory: string, timeout: nat, first: Outcome, init: Outcome, retry: Outcome): Answer {
    match Completion(first)
    case Err(f) => Err(f)
    case Ok(c1) =>
      if c1.returncode == TimeoutReturnCode then Ok(Reply(false, TimeoutMessage(directory, timeout)))
      else if c1.returncode == 0 then Report(directory, c1)
      else
        match Completion(init)
        case Err(f) => Err(f)
        case Ok(c2) =>
          if c2.returncode != 0 then Report(directory, c2)
          else
            match Completion(retry)
            case Err(f) => Err(f)
            case Ok(c3) => Report(directory, c3)
  }

  /** The operating system as the runner sees it: a working directory and
      the log of processes started, each answered by the script. */
  class Os {
    var cwd: string
    var launched: seq<Invocation>
    const script: nat -> Outcome

    constructor (cwd: string, script: nat -> Outcome)
      ensures this.cwd == cwd && launched == [] && this.script == script
    {
      this.cwd := cwd;
      launched := [];
      this.script := script;
    }

    /** `os.chdir(path)`. */
    method Chdir(path: string)
      modifies this`cwd
      ensures cwd == Resolve(old(cwd), path)
    {
      cwd := Resolve(cwd, path);
    }

    /** `subprocess.run(argv, env=env, timeout=timeout, capture_output=True)`
        in the current directory. */
    method Launch(argv: seq<string>, env: map<string, string>, timeout: nat) returns (o: Outcome)
      modifies this`launched
      ensures launched == old(launched) + [Invocation(argv, cwd, env, timeout)]
      ensures o == script(|old(launched)|)
    {
      o := script(|launched|);
      launched := launched + [Invocation(argv, cwd, env, timeout)];
    }
  }

  /** The context manager that switches into a directory and back to the
      directory current when it was made. */
  class StatePath {
    const os: Os
    const startDir: string
    const destPath: string

    constructor (os: Os, path: string)
      ensures this.os == os && startDir == os.cwd && destPath == path
    {
      this.os := os;
      startDir := os.cwd;
      destPath := path;
    }

    method Enter()
      modifies os`cwd
      ensures os.cwd == Resolve(old(os.cwd), destPath)
    {
      os.Chdir(destPath);
    }

    method Exit()
      modifies os`cwd
      ensures os.cwd == startDir
    {
      os.cwd := startDir;
    }
  }

  class TerraformCommand {
    const os: Os
    const timeout: nat
    const env: map<string, string>

    /** A runner over a copy of the environment `environ`. */
    constructor (os: Os, environ: map<string, string>, profile: Option<string>, timeout: nat)
      ensures this.os == os && this.timeout == timeout && env == EnvFor(environ, profile)
    {
      this.os := os;
      this.timeout := timeout;
      env := EnvFor(environ, profile);
    }

    /** `_run`: one process inside `directory`; the working directory is
        restored whatever the process does. */
    method Run(cmd: seq<string>, directory: string) returns (r: Result<Completed, Fault>)
      modifies os
      ensures os.cwd == old(os.cwd)
      ensures os.launched == old(os.launched) + [Invocation(cmd, Resolve(old(os.cwd), directory), env, timeout)]
      ensures r == Completion(os.script(|old(os.launched)|))
    {
      var path := new StatePath(os, directory);
      path.Enter();
      var o := os.Launch(cmd, env, timeout);
      path.Exit();
      r := Completion(o);
    }

    /** `run_command`: the command split on whitespace, with the timeout
        and init-and-retry handling. */
    method RunCommand(command: string, directory: string) returns (answer: Answer)
      modifies os
      ensures os.cwd == old(os.cwd)
      ensures var n := |old(os.launched)|;
        os.launched == old(os.launched)
          + Trace(SplitWhitespace(command), Resolve(old(os.cwd), directory), env, timeout,
                  os.script(n), os.script(n + 1))
      ensures var n := |old(os.launched)|;
        answer == Verdict(directory, timeout, os.script(n), os.script(n + 1), os.script(n + 2))
    {
      ghost var n := |os.launched|;
      ghost var first, init, retry := os.script(n), os.script(n + 1), os.script(n + 2);
      ghost var here := Resolve(os.cwd, directory);
      var cmd := SplitWhitespace(command);
      var result :- Run(cmd, directory);
      if result.returncode == TimeoutReturnCode {
        return Ok(Reply(false, TimeoutMessage(directory, timeout)));
      }
      if result.returncode != 0 {
        var r :- Run(InitCommand, directory);
        result := r;
        if result.returncode == 0 {
          r :- Run(cmd, directory);
          result := r;
        }
      }
      answer := Report(directory, result);
      assert os.launched == old(os.launched) + Trace(cmd, here, env, timeout, first, init);
    }
  }

  // -----------------------------------------------------------------------
  // What the runner promises

  /** A first run that ends with code 2, by timing out or by exiting with
      it, is reported as a timeout and starts nothing else. */
  lemma TimeoutFirstRun(cmd: seq<string>, cwd: string, env: map<string, string>, directory: string,
                        timeout: nat, first: Outcome, init: Outcome, retry: Outcome)
    requires first.TimedOut? || (first.Exited? && first.code == TimeoutReturnCode)
    ensures Verdict(directory, timeout, first, init, retry) == Ok(Reply(false, TimeoutMessage(directory, timeout)))
    ensures Trace(cmd, cwd, env, timeout, first, init) == [Invocation(cmd, cwd, env, timeout)]
  {
  }

  /** Any other failing first run is followed by exactly one
      `terraform init`; the command runs again only when init exits 0. */
  lemma InitThenRetry(cmd: seq<string>, cwd: string, env: map<string, string>, timeout: nat,
                      first: Outcome, init: Outcome)
    requires first.Exited? && first.code != 0 && first.code != TimeoutReturnCode
    ensures var t := Trace(cmd, cwd, env, timeout, first, init);
      2 <= |t| && t[0].argv == cmd && t[1].argv == InitCommand
      && (|t| == 3 <==> init.Exited? && init.code == 0)
      && (|t| == 3 ==> t[2].argv == cmd)
  {
  }

  /** A failure after init reports init's own error output when init
      failed, and the retry's when the retry failed. */
  lemma FailureReportsLastRun(directory: string, timeout: nat, first: Outcome, init: Outcome, retry: Outcome)
    requires first.Exited? && first.code != 0 && first.code != TimeoutReturnCode
    ensures init.Exited? && init.code != 0 ==>
      Verdict(directory, timeout, first, init, retry) == Ok(Reply(false, FailureMessage(directory, init.stderr)))
    ensures init.Exited? && init.code == 0 && retry.Exited? && retry.code != 0 ==>
      Verdict(directory, timeout, first, init, retry) == Ok(Reply(false, FailureMessage(directory, retry.stderr)))
  {
  }

  /** A zero exit, first time or on the retry, returns its output; when
      the first run succeeds it is the only process started. */
  lemma SuccessReturnsOutput(cmd: seq<string>, cwd: string, env: map<string, string>, directory: string,
                             timeout: nat, first: Outcome, init: Outcome, retry: Outcome)
    ensures first.Exited? && first.code == 0 ==>
      Verdict(directory, timeout, first, init, retry) == Ok(Reply(true, first.stdout))
      && |Trace(cmd, cwd, env, timeout, first, init)| == 1
    ensures first.Exited? && first.code != 0 && first.code != TimeoutReturnCode
            && init.Exited? && init.code == 0 && retry.Exited? && retry.code == 0 ==>
      Verdict(directory, timeout, first, init, retry) == Ok(Reply(true, retry.stdout))
  {
  }

  /** The one reply with `success` set is the one made from a zero exit. */
  lemma SuccessOnlyFromZeroExit(directory: string, timeout: nat, first: Outcome, init: Outcome, retry: Outcome)
    requires Verdict(directory, timeout, first, init, retry).Ok?
    requires Verdict(directory, timeout, first, init, retry).value.success
    ensures (first.Exited? && first.code == 0)
            || (first.Exited? && init.Exited? && init.code == 0 && retry.Exited? && retry.code == 0)
  {
  }

  /** The command `"dummy command"` becomes the argument list
      `["dummy", "command"]`. */
  lemma {:induction false} DummyCommandArgv()
    ensures SplitWhitespace("dummy command") == ["dummy", "command"]
  {
    var words := ["dummy", "command"];
    assert NoSpace(words[0]) && NoSpace(words[1]);
    assert JoinWith(words, ' ') == "dummy command";
    SplitWhitespaceJoin(words);
  }

  /** The default timeout reads "300" in the timeout message. */
  lemma DefaultTimeoutMessage(directory: string)
    ensures TimeoutMessage(directory, DefaultTimeout) == directory + " - Ran out of default time of 300s"
  {
    assert NatToString(3) == "3";
    assert NatToString(30) == "30";
  }

  // -----------------------------------------------------------------------
  // A timeout during init or the retry

  /** As written, a timeout of `terraform init` or of the retry leaves a
      completed process with code 2 and no error output, and building the
      failure message raises instead of returning a reply. */
  lemma LateTimeoutRaises(directory: string, timeout: nat, first: Outcome, init: Outcome, retry: Outcome)
    requires first.Exited? && first.code != 0 && first.code != TimeoutReturnCode
    requires init.TimedOut? || (init.Exited? && init.code == 0 && retry.TimedOut?)
    ensures Verdict(directory, timeout, first, init, retry) == Err(NoneDecoded)
  {
  }

  /** As written, raising on a missing output happens only then. */
  lemma NoneDecodedOnlyOnLateTimeout(directory: string, timeout: nat, first: Outcome, init: Outcome, retry: Outcome)
    requires Verdict(directory, timeout, first, init, retry) == Err(NoneDecoded)
    ensures first.Exited? && first.code != 0 && first.code != TimeoutReturnCode
    ensures init.TimedOut? || (init.Exited? && init.code == 0 && retry.TimedOut?)
  {
  }
}
