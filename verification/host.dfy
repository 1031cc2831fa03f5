/** The parts of the operating system the runners touch: the temporary
    directory, as a map from path to file content, and the interpreter
    processes they launch.  A process is not run here; what `subprocess.run`
    ends in is an input (`ProcessOutcome`), and so is the directory the
    process leaves behind, since a script may create, change or delete any
    file, its own included.  Every launch is recorded with the files present
    at that moment. */
module Host {

  /** What one `subprocess.run(..., timeout=300)` call ends in. */
  datatype ProcessOutcome =
    | Completed(returnCode: int, stdout: string, stderr: string)
    | TimedOut(message: string)   // subprocess.TimeoutExpired
    | NotFound(message: string)   // FileNotFoundError: the executable is missing
    | Crashed(message: string)    // any other exception raised by the call

  /** The fixed wall-clock bound every interpreter call is given, in seconds. */
  const TimeoutSeconds: nat := 300

  /** The files after one launch: what the process left (`left`), or the
      files at launch (`atLaunch`) when the executable was not found and so
      nothing ran. */
  function FilesAfterRun(outcome: ProcessOutcome, atLaunch: map<string, string>, left: map<string, string>)
    : map<string, string>
  {
    if outcome.NotFound? then atLaunch else left
  }

  /** One interpreter launch: its argument vector, its timeout and the files
      on disk when it started. */
  datatype Invocation = Invocation(command: seq<string>, timeoutSeconds: nat, filesAtLaunch: map<string, string>)

  class Machine {
    var files: map<string, string>
    var invocations: seq<Invocation>

    constructor (files: map<string, string>)
      ensures this.files == files && invocations == []
    {
      this.files := files;
      this.invocations := [];
    }

    /** `with open(path, 'w') as f: f.write(content)`: creates or overwrites. */
    method WriteFile(path: string, content: string)
      modifies this
      ensures files == old(files)[path := content]
      ensures invocations == old(invocations)
    {
      files := files[path := content];
    }

    /** `os.path.exists(path)`. */
    method Exists(path: string) returns (b: bool)
      ensures b <==> path in files
    {
      b := path in files;
    }

    /** `os.remove(path)`. */
    method Remove(path: string)
      requires path in files
      modifies this
      ensures files == old(files) - {path}
      ensures invocations == old(invocations)
    {
      files := files - {path};
    }

    /** `subprocess.run(command, capture_output=True, text=True, timeout=timeoutSeconds)`,
        whose process ends in `outcome` and leaves the files `filesLeft`. */
    method Run(command: seq<string>, timeoutSeconds: nat, outcome: ProcessOutcome, filesLeft: map<string, string>)
      returns (o: ProcessOutcome)
      modifies this
      ensures o == outcome
      ensures files == FilesAfterRun(outcome, old(files), filesLeft)
      ensures invocations == old(invocations) + [Invocation(command, timeoutSeconds, old(files))]
    {
      invocations := invocations + [Invocation(command, timeoutSeconds, files)];
      files := FilesAfterRun(outcome, files, filesLeft);
      o := outcome;
    }
  }
}
