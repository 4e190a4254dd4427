/** Starting a job (ansible.go, `runAnsible`): the sequence of OS calls that
    allocates the job directory, stores the inputs, opens the log and starts
    ansible-playbook, with the early returns that abort on some failures and
    the failures it ignores; and the status text the background task writes
    when the process has exited. Every OS call is replaced by the outcome it
    has on this run. */
module Runner {
  import opened Outcomes
  import opened GoStrings

  /** The directory under which every job gets its own directory. */
  const JobsRoot: string := "jobs"

  /** The OS calls the function issues, with the arguments that matter. */
  datatype Call =
    | Mkdir(path: string)
    | TempDir(dir: string)
    | WriteFile(path: string, data: string)
    | CreateExclusive(path: string)
    | Getwd
    | Symlink(target: string, link: string)
    | Start(args: seq<string>, dir: string)

  /** What each OS call returns on this run, in program order. */
  datatype OsOutcomes = OsOutcomes(
    mkdir: Status,            // creating the jobs root
    tempDir: Result<string>,  // creating the job directory, which it names
    writeInventory: Status,   // storing the inventory
    writePlaybook: Status,    // storing the playbook
    writeRemote: Status,      // storing the note on who started the job
    openLog: Status,          // the exclusive creation of the log
    getwd: Result<string>,    // asking for the working directory
    symlink: Status,          // linking the shared roles into the job directory
    start: Status)            // starting ansible-playbook

  /** The command line of the child process. */
  function Command(jobdir: string): seq<string> {
    ["ansible-playbook", "-i", jobdir + "/inventory", jobdir + "/playbook.yml"]
  }

  /** A failure to start the process is reported with a prefix. */
  function StartError(s: Status): Option<string> {
    match s
    case Success => None
    case Failure(msg) => Some("command Start: " + msg)
  }

  /** The errors of the steps whose failure aborts the run, in the order the
      steps are taken. Mkdir, the remote note and the roles link are not
      among them. */
  function FatalErrors(os: OsOutcomes): seq<Option<string>> {
    [ ResultError(os.tempDir), StatusError(os.writeInventory), StatusError(os.writePlaybook),
      StatusError(os.openLog), ResultError(os.getwd), StartError(os.start) ]
  }

  /** The steps before the process is started: allocation of the workspace. */
  const AllocationSteps: nat := 5

  /** Every step before the start succeeds. */
  predicate WorkspaceReady(os: OsOutcomes) {
    os.tempDir.Ok? && os.writeInventory.Success? && os.writePlaybook.Success?
    && os.openLog.Success? && os.getwd.Ok?
  }

  /** The first five fatal steps are the set-up of the workspace. */
  lemma FatalStepsReadyIff(os: OsOutcomes)
    ensures WorkspaceReady(os) <==> forall i :: 0 <= i < AllocationSteps ==> FatalErrors(os)[i].None?
    ensures FatalErrors(os)[AllocationSteps].None? <==> os.start.Success?
  {
    var errs := FatalErrors(os);
    assert errs[0].None? <==> os.tempDir.Ok?;
    assert errs[1].None? <==> os.writeInventory.Success?;
    assert errs[2].None? <==> os.writePlaybook.Success?;
    assert errs[3].None? <==> os.openLog.Success?;
    assert errs[4].None? <==> os.getwd.Ok?;
  }

  /** The position of the first failing step, or the number of steps when
      none fails. */
  function FirstFailingStep(errs: seq<Option<string>>): (k: nat)
    ensures k <= |errs|
    ensures forall i :: 0 <= i < k ==> errs[i].None?
    ensures k < |errs| ==> errs[k].Some?
  {
    if errs == [] then 0
    else if errs[0].Some? then 0
    else 1 + FirstFailingStep(errs[1..])
  }

  /** The result of runAnsible, stated over the step outcomes: the error of
      the first fatal step that fails, otherwise the path of the log. */
  function RunResult(os: OsOutcomes): Result<string> {
    var errs := FatalErrors(os);
    var k := FirstFailingStep(errs);
    if k < |errs| then Err(errs[k].value) else Ok(os.tempDir.value + "/log")
  }

  /** The run succeeds exactly when every fatal step succeeds, and then it
      returns the log inside the new job directory. */
  lemma RunSucceedsIff(os: OsOutcomes)
    ensures RunResult(os).Ok? <==> WorkspaceReady(os) && os.start.Success?
    ensures RunResult(os).Ok? ==> RunResult(os).value == os.tempDir.value + "/log"
  {
    FatalStepsReadyIff(os);
  }

  /** A failing fatal step whose predecessors succeeded decides the error. */
  lemma RunFailsAtFirstFailure(os: OsOutcomes, i: nat)
    requires i < |FatalErrors(os)| && FatalErrors(os)[i].Some?
    requires forall k :: 0 <= k < i ==> FatalErrors(os)[k].None?
    ensures FirstFailingStep(FatalErrors(os)) == i
    ensures RunResult(os) == Err(FatalErrors(os)[i].value)
  {
  }

  /** When the workspace is in place but the process cannot be started, the
      error is the start error behind "command Start: ". */
  lemma StartFailureWrapped(os: OsOutcomes)
    requires WorkspaceReady(os) && os.start.Failure?
    ensures RunResult(os) == Err("command Start: " + os.start.error)
  {
    RunFailsAtFirstFailure(os, 5);
  }

  /** A failure while the workspace is being set up: the run ends with that
      step's error and the process is never started. */
  lemma AllocationFailsAt(os: OsOutcomes, i: nat)
    requires i < AllocationSteps && FatalErrors(os)[i].Some?
    requires forall k :: 0 <= k < i ==> FatalErrors(os)[k].None?
    ensures FirstFailingStep(FatalErrors(os)) == i
    ensures RunResult(os) == Err(FatalErrors(os)[i].value)
    ensures !WorkspaceReady(os)
  {
  }

  /** Whether Mkdir, the remote note and the roles link succeed has no effect
      on the result. */
  lemma BestEffortStepsIgnored(os: OsOutcomes, mkdir: Status, writeRemote: Status, symlink: Status)
    ensures RunResult(os.(mkdir := mkdir, writeRemote := writeRemote, symlink := symlink)) == RunResult(os)
  {
  }

  /** Every call runAnsible makes when no step fails, in order. */
  function FullTrace(inventory: string, playbook: string, remote: string, jobdir: string, curdir: string): seq<Call> {
    [ Mkdir(JobsRoot), TempDir(JobsRoot),
      WriteFile(jobdir + "/inventory", inventory), WriteFile(jobdir + "/playbook.yml", playbook),
      WriteFile(jobdir + "/remote", "job started by " + remote), CreateExclusive(jobdir + "/log"),
      Getwd, Symlink(curdir + "/roles", jobdir + "/roles"), Start(Command(jobdir), curdir) ]
  }

  /** For each fatal step, the position of its call in the full trace. */
  const FatalCallIndex: seq<nat> := [1, 2, 3, 5, 6, 8]

  /** The calls made: the full trace up to and including the call of the
      first fatal step that fails. A job directory or working directory
      that was never obtained is given as "", and no call that uses it is
      ever reached. */
  function Trace(inventory: string, playbook: string, remote: string, os: OsOutcomes): seq<Call> {
    var jobdir := if os.tempDir.Ok? then os.tempDir.value else "";
    var curdir := if os.getwd.Ok? then os.getwd.value else "";
    var full := FullTrace(inventory, playbook, remote, jobdir, curdir);
    var k := FirstFailingStep(FatalErrors(os));
    var n := if k < |FatalCallIndex| then FatalCallIndex[k] + 1 else |full|;
    full[..n]
  }

  /** Whether a Start call was issued (it may still have failed). */
  predicate StartIssued(calls: seq<Call>) {
    exists c :: c in calls && c.Start?
  }

  /** The start is attempted exactly when the workspace is ready; then it is
      the last call, after the inputs, the note, the log and the roles link
      are in place. Otherwise the trace ends with the failing step's call. */
  lemma TraceStart(inventory: string, playbook: string, remote: string, os: OsOutcomes)
    ensures StartIssued(Trace(inventory, playbook, remote, os)) <==> WorkspaceReady(os)
    ensures WorkspaceReady(os) ==>
      Trace(inventory, playbook, remote, os) == FullTrace(inventory, playbook, remote, os.tempDir.value, os.getwd.value)
    ensures !WorkspaceReady(os) ==>
      var k := FirstFailingStep(FatalErrors(os));
      var t := Trace(inventory, playbook, remote, os);
      k < AllocationSteps && |t| == FatalCallIndex[k] + 1
  {
    var t := Trace(inventory, playbook, remote, os);
    var k := FirstFailingStep(FatalErrors(os));
    FatalStepsReadyIff(os);
    if WorkspaceReady(os) {
      assert k >= AllocationSteps;
      assert t[8] in t;
    } else {
      assert k < AllocationSteps;
      forall c | c in t ensures !c.Start? {
        var i :| 0 <= i < |t| && t[i] == c;
      }
    }
  }

  /** cmd.Wait() returns nil or an error. */
  datatype WaitResult = Exited | WaitFailed(err: string)

  const FinishedOk: string := " finished with no errors\n"
  const FinishedErr: string := " finished with error status: "

  /** The text written into the job's exitstatus file. */
  function ExitStatusMessage(jobdir: string, w: WaitResult): (text: string)
    ensures HasPrefix(text, jobdir) && |text| > |jobdir| && text[|text| - 1] == '\n'
  {
    match w
    case Exited => jobdir + FinishedOk
    case WaitFailed(e) => jobdir + FinishedErr + e + "\n"
  }

  /** Whether `s` starts with `prefix`; used only to read status texts back. */
  predicate HasPrefix(s: string, prefix: string) {
    |prefix| <= |s| && s[..|prefix|] == prefix
  }

  /** Reads a status text back: the outcome it records, if it is one. */
  function ParseExitStatus(jobdir: string, text: string): Option<WaitResult> {
    if !HasPrefix(text, jobdir) then None
    else
      var rest := text[|jobdir|..];
      if rest == FinishedOk then Some(Exited)
      else if HasPrefix(rest, FinishedErr) && |rest| > |FinishedErr| && rest[|rest| - 1] == '\n' then
        Some(WaitFailed(rest[|FinishedErr|..|rest| - 1]))
      else None
  }

  /** The status text records the outcome of Wait, error text included. */
  lemma ExitStatusRoundTrip(jobdir: string, w: WaitResult)
    ensures ParseExitStatus(jobdir, ExitStatusMessage(jobdir, w)) == Some(w)
  {
    var text := ExitStatusMessage(jobdir, w);
    var rest := text[|jobdir|..];
    match w
    case Exited =>
      assert rest == FinishedOk;
    case WaitFailed(e) =>
      assert rest == FinishedErr + e + "\n";
      assert rest[..|FinishedErr|] == FinishedErr;
      assert rest != FinishedOk by { assert rest[15] != FinishedOk[15]; }
      assert rest[|FinishedErr|..|rest| - 1] == e;
  }

  /** Only status texts are read back as outcomes. */
  lemma ExitStatusParseExact(jobdir: string, text: string, w: WaitResult)
    requires ParseExitStatus(jobdir, text) == Some(w)
    ensures text == ExitStatusMessage(jobdir, w)
  {
  }

  /** A success and a failure never leave the same status text. */
  lemma ExitStatusDistinguishes(jobdir: string, w1: WaitResult, w2: WaitResult)
    requires ExitStatusMessage(jobdir, w1) == ExitStatusMessage(jobdir, w2)
    ensures w1 == w2
  {
    ExitStatusRoundTrip(jobdir, w1);
    ExitStatusRoundTrip(jobdir, w2);
  }

  /** The job directory and the working directory, once both are known. */
  datatype Workspace = Workspace(jobdir: string, curdir: string)

  /** The first part of runAnsible: create the job directory, store the
      inputs and the remote note, create the log and find the working
      directory. Fails with the error of the first of these steps that
      fails (the note excepted), having made the calls up to that step. */
  method SetUpJob(inventory: string, playbook: string, remote: string, os: OsOutcomes)
    returns (r: Result<Workspace>, calls: seq<Call>)
    ensures r.Ok? <==> WorkspaceReady(os)
    ensures r.Err? ==> RunResult(os) == Err(r.error) && calls == Trace(inventory, playbook, remote, os)
    ensures r.Ok? ==> r.value == Workspace(os.tempDir.value, os.getwd.value)
    ensures r.Ok? ==> calls == Trace(inventory, playbook, remote, os)[..7]
  {
    ghost var full := FullTrace(inventory, playbook, remote,
                                if os.tempDir.Ok? then os.tempDir.value else "",
                                if os.getwd.Ok? then os.getwd.value else "");
    calls := [Mkdir(JobsRoot)];
    // the outcome of os.Mkdir is not looked at

    calls := calls + [TempDir(JobsRoot)];
    if os.tempDir.Err? {
      AllocationFailsAt(os, 0);
      assert calls == full[..2];
      return Err(os.tempDir.error), calls;
    }
    var jobdir := os.tempDir.value;

    calls := calls + [WriteFile(jobdir + "/inventory", inventory)];
    var err := os.writeInventory;
    if err.Failure? {
      AllocationFailsAt(os, 1);
      assert calls == full[..3];
      return Err(err.error), calls;
    }

    calls := calls + [WriteFile(jobdir + "/playbook.yml", playbook)];
    err := os.writePlaybook;
    if err.Failure? {
      AllocationFailsAt(os, 2);
      assert calls == full[..4];
      return Err(err.error), calls;
    }

    calls := calls + [WriteFile(jobdir + "/remote", "job started by " + remote)];
    // the outcome of the remote note is not looked at

    calls := calls + [CreateExclusive(jobdir + "/log")];
    err := os.openLog;
    if err.Failure? {
      AllocationFailsAt(os, 3);
      assert calls == full[..6];
      return Err(err.error), calls;
    }

    calls := calls + [Getwd];
    if os.getwd.Err? {
      AllocationFailsAt(os, 4);
      assert calls == full[..7];
      return Err(os.getwd.error), calls;
    }
    TraceStart(inventory, playbook, remote, os);
    assert calls == full[..7];
    return Ok(Workspace(jobdir, os.getwd.value)), calls;
  }

  /** runAnsible. Returns the result, the OS calls made before returning, and
      the write the background task makes once the process has exited with
      outcome `wait` (none if no process was started). */
  method RunAnsible(inventory: string, playbook: string, remote: string, os: OsOutcomes, wait: WaitResult)
    returns (r: Result<string>, calls: seq<Call>, completion: Option<Call>)
    ensures r == RunResult(os)
    ensures calls == Trace(inventory, playbook, remote, os)
    ensures StartIssued(calls) <==> WorkspaceReady(os)
    ensures r.Ok? ==> CreateExclusive(r.value) in calls[..|calls| - 1]
    ensures completion.Some? <==> r.Ok?
    ensures r.Ok? ==> completion == Some(WriteFile(os.tempDir.value + "/exitstatus",
                                                   ExitStatusMessage(os.tempDir.value, wait)))
  {
    completion := None;
    TraceStart(inventory, playbook, remote, os);
    var ws;
    ws, calls := SetUpJob(inventory, playbook, remote, os);
    if ws.Err? {
      return Err(ws.error), calls, completion;
    }
    var jobdir, curdir := ws.value.jobdir, ws.value.curdir;
    var logfname := jobdir + "/log";

    calls := calls + [Symlink(curdir + "/roles", jobdir + "/roles")];
    // the outcome of os.Symlink is not looked at

    calls := calls + [Start(Command(jobdir), curdir)];
    assert calls == FullTrace(inventory, playbook, remote, jobdir, curdir);
    assert calls[..|calls| - 1][5] == CreateExclusive(logfname);
    var err := os.start;
    if err.Failure? {
      StartFailureWrapped(os);
      return Err("command Start: " + err.error), calls, completion;
    }

    completion := Some(WriteFile(jobdir + "/exitstatus", ExitStatusMessage(jobdir, wait)));
    RunSucceedsIff(os);
    return Ok(logfname), calls, completion;
  }
}
