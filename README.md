# ansible_webui job core, modelled in Dafny

`ansible_webui` is a small Go web front end (`ansible.go`). It starts
`ansible-playbook` runs ("jobs") from submitted inventory and playbook text.
Each job gets its own directory under `jobs/`. The program lists those
directories as a JSON API, and a background task records each job's exit
status. This project models the logic inside that plumbing:

- **Directory listing** (`readdir`, `checkDir`, `checkFile`). Entries are kept
  when a kind test accepts them. When a suffix is given, only names ending in
  it are kept, with the suffix stripped. The names are then sorted. A
  directory that cannot be opened or read gives an empty list.
- **Job list** (`serveAPI`, `/api/v1/jobs`). Each job directory becomes a
  record `{job, link}`, in listing order.
- **runAnsible**. Every OS call is replaced by the outcome it has on the run.
  The model states which failures abort the run and with what error, which
  failures are ignored, and what is returned on success. It also states the
  exact sequence of OS calls issued: the full sequence, cut after the call
  of the first fatal step that fails.
- **Exit status text**. This is the text the background task writes into
  `exitstatus` once `Wait` returns.

Modules, one per concern of the Go file:

| file | module | models |
|---|---|---|
| outcomes.dfy | `Outcomes` | Go's `(value, error)` and `error` returns |
| gostrings.dfy | `GoStrings` | `strings.HasSuffix`, `strings.TrimSuffix`, string `<=` |
| stringsort.dfy | `StringSort` | the contract of `sort.Strings` |
| dirlisting.dfy | `DirListing` | `readdir`, `checkDir`, `checkFile`, os.FileMode type bits |
| jobsapi.dfy | `JobsApi` | the `/api/v1/jobs` record list |
| runner.dfy | `Runner` | `runAnsible` and the exit-status message |

Inputs that stand for the outside world:

- `DirRead` stands for opening and reading a directory: `OpenFailed`,
  `ReaddirFailed` or the entries read.
- `OsOutcomes` holds what each OS call of `runAnsible` returns: the
  directory `TempDir` created, the working directory `Getwd` reports, and
  success or error text for the rest.
- `WaitResult` is what `cmd.Wait()` returns.
- The request `Host` is a string parameter.

Behaviour of the code the model keeps:

- The inventory, playbook and remote files are written with
  `ioutil.WriteFile`, which does not fail when the file exists. Only the log
  is opened with `O_EXCL`, so only the log write is create-only.
- A failing `os.Mkdir("jobs")` is ignored. It is not reported, and the
  failure shows up only if `TempDir` then fails.
- A failing remote-note write is ignored silently. It is not logged.
- The `exitstatus` file is written with `ioutil.WriteFile`, and any error
  from that write is ignored.
- `Readdir` reports entries as `lstat` does. A job directory reached through
  a symbolic link is a `Symlink` entry, and `checkDir` rejects it.

Names are `string`s whose characters stand for the bytes of Go strings.
Character order stands for byte order, and the two agree for UTF-8 names.

## Model

| member | source | states |
|---|---|---|
| `GoStrings.TrimSuffix` | ansible.go:37 | stripping a suffix the name ends with leaves the part that gives the name back when the suffix is appended; a name without the suffix is unchanged |
| `GoStrings.TrimSuffixUnique` | ansible.go:37 | the part before the suffix is the only string that trimming can give for that name |
| `StringSort.SortStrings` | ansible.go:41 | the sorted list is in ascending byte-wise order and holds exactly the strings of the input, each as often |
| `StringSort.SortedUnique` | ansible.go:41 | two ascending lists with the same strings are equal: the sorted order is determined by the strings alone |
| `DirListing.CheckDir` | ansible.go:46-52 | the mode's directory bit is set exactly for directories (symbolic links, devices, pipes, sockets and regular files are rejected, whatever the permission bits) |
| `DirListing.CheckFile` | ansible.go:54-60 | the mode has no type bit exactly for regular files |
| `DirListing.ChecksDisjoint` | ansible.go:46-60 | no entry passes both kind tests |
| `DirListing.Readdir` | ansible.go:18-44 | open or read failure gives the empty list; otherwise the output is ascending, a permutation of the names the loop collects, no longer than the entry list; a string is in it exactly when some entry passes the test (and ends with the suffix when one is given) and has that string as its suffix-stripped name; with no suffix it is a permutation of exactly the names of the entries the test accepts |
| `DirListing.ListingProvenance` | ansible.go:32-38 | every collected name comes from an entry that passes the test and ends with the suffix, minus the suffix |
| `DirListing.ListingComplete` | ansible.go:32-38 | every entry that passes the test and ends with the suffix contributes its stripped name |
| `DirListing.ListingLength` | ansible.go:32-38 | the loop collects at most one name per entry |
| `DirListing.ListingWithoutSuffix` | ansible.go:32-38 | with an empty suffix the loop collects the names of the accepted entries, in directory order, unchanged |
| `DirListing.FilterNoneAccepted` | ansible.go:33 | when the test accepts no entry, nothing is selected |
| `JobsApi.BuildJobsList` | ansible.go:251-258 | starting from an empty list, one record per job directory in the same order, whose job is that name and whose link is `http://` host `/jobs/` name `/` |
| `JobsApi.LinkInjective` | ansible.go:255 | two job names with the same link are the same name |
| `JobsApi.LinksIdentifyJobs` | ansible.go:252-258 | within a job list no two different records share a link |
| `JobsApi.ListJobs` | ansible.go:250-258 | the records are the job directories (files and links are not jobs) in ascending order, each with its link; an unreadable jobs directory or one without job directories gives an empty list, not an error |
| `JobsApi.JobsListingDeterministic` | ansible.go:250-258 | listing the same jobs directory twice gives the same ordered records |
| `Runner.FirstFailingStep` | ansible.go:85-133 | every step before the returned position succeeded, and the step at that position failed unless it is past the last step: the early returns stop at the first failure |
| `Runner.RunSucceedsIff` | ansible.go:82-147 | the run succeeds exactly when TempDir, both input writes, the exclusive log open, Getwd and Start succeed, and then returns the job directory followed by `/log` |
| `Runner.FatalStepsReadyIff` | ansible.go:85-113 | the workspace is ready exactly when the first five fatal steps report no error, and the sixth reports none exactly when Start succeeds |
| `Runner.RunFailsAtFirstFailure` | ansible.go:85-133 | when a step fails after all earlier fatal steps succeeded, the run returns exactly that step's error |
| `Runner.StartFailureWrapped` | ansible.go:130-133 | with the workspace in place, a Start failure gives the Start error behind `command Start: ` |
| `Runner.AllocationFailsAt` | ansible.go:85-113 | a failure while the workspace is set up ends the run with that step's error |
| `Runner.BestEffortStepsIgnored` | ansible.go:83-115 | whether Mkdir, the remote-note write and the roles link succeed has no effect on the result |
| `Runner.ExitStatusMessage` | ansible.go:136-143 | the status text starts with the job directory and ends with a newline |
| `Runner.ExitStatusRoundTrip` | ansible.go:137-142 | the status text records the wait outcome exactly: success, or failure together with its error text |
| `Runner.ExitStatusParseExact` | ansible.go:137-142 | only the texts the task writes read back as outcomes |
| `Runner.ExitStatusDistinguishes` | ansible.go:137-142 | different wait outcomes never give the same status text |
| `Runner.SetUpJob` | ansible.go:83-113 | succeeds exactly when TempDir, both input writes, the log open and Getwd succeed, returning the new job directory and the working directory; on success its calls are the first seven of the full trace (Mkdir and TempDir on `jobs`, the inventory and playbook written as given, the remote note, the exclusive log creation, Getwd); on failure they stop at the failing call and the error is the run's |
| `Runner.RunAnsible` | ansible.go:82-147 | the result is the error of the first failing fatal step (Start's behind `command Start: `) or the job directory followed by `/log`; the calls are exactly the full trace cut after the first failing fatal step's call, so Start is called exactly when the workspace is ready and a process runs exactly when the result is Ok; the returned log was created by an earlier call; the exit-status write is scheduled exactly when the run succeeds, with the message for the wait outcome |
| `Runner.TraceStart` | ansible.go:83-130 | Start is called exactly when the workspace is ready, and then the calls are the full trace ending with Start; otherwise the trace stops at the call of the failing set-up step |

## Left out

- HTTP handling is left out: `requestHandler`, `serveAssets`, `serveStatus`, the non-GET answer of `serveAPI`, `http.Error`, `http.NotFound` and `main`'s flags and listener. This is network and user-interface plumbing.
- Template parsing and execution are left out (`text/template` is a library).
- JSON marshalling of the job list and of `httperror` is left out. The library owns that format; the model stops at the record list.
- `readFile` is left out (buffered line scanning of the `machines` file is I/O plus the library's line splitting).
- The real filesystem and process are left out: the uniqueness of `TempDir` names, the atomicity of `O_EXCL`, file modes, closing files, `exec.Command`'s environment (`PYTHONUNBUFFERED=1`) and the redirection of stdout and stderr into the log. Each OS call is an input outcome.
- The background goroutine is left out as a concurrent task. `RunAnsible` returns the status write it will make, but not when it happens relative to other requests. The outcome of that write is ignored by the code, so it is not an input.
- The response body is written with `fmt.Fprintf(w, string(b))` (ansible.go:271), which uses the JSON text as a format string, so a `%` in the host or a job name would be rewritten by `fmt`. `fmt`'s formatting is not modelled.
- `ioutil.TempDir`'s empty name prefix is left out. Only the directory it returns matters.
- StringSort.SortStrings: sorts a copy by insertion instead of Go's in-place sort of the slice. Only the contract is shared: ascending order and the same strings.
- DirListing.Readdir: the directory path argument is replaced by the outcome of opening and reading it, and entries carry only name, kind and permission bits of their `os.FileInfo`.
