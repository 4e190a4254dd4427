/** The job listing served at /api/v1/jobs (ansible.go, `serveAPI`): one
    record per job directory, each with a link to the job's files. */
module JobsApi {
  import opened GoStrings
  import opened StringSort
  import opened DirListing

  /** The `job` struct before it is marshalled to JSON. */
  datatype Job = Job(job: string, link: string)

  /** The address under which the job directory is served. */
  function Link(host: string, name: string): string {
    "http://" + host + "/jobs/" + name + "/"
  }

  /** Different job names never share a link. */
  lemma LinkInjective(host: string, a: string, b: string)
    requires Link(host, a) == Link(host, b)
    ensures a == b
  {
    var p := "http://" + host + "/jobs/";
    assert Link(host, a) == p + a + "/" && Link(host, b) == p + b + "/";
    assert |a| == |b|;
    assert a == Link(host, a)[|p|..|p| + |a|];
    assert b == Link(host, b)[|p|..|p| + |b|];
  }

  /** The job names the records carry, in order. */
  function JobNames(jobs: seq<Job>): seq<string> {
    seq(|jobs|, i requires 0 <= i < |jobs| => jobs[i].job)
  }

  /** The loop over the job directories, starting from an empty list. */
  method BuildJobsList(host: string, jobsdirs: seq<string>) returns (jobslist: seq<Job>)
    ensures JobNames(jobslist) == jobsdirs
    ensures forall j :: j in jobslist ==> j.link == Link(host, j.job)
  {
    jobslist := [];
    for i := 0 to |jobsdirs|
      invariant |jobslist| == i
      invariant forall k :: 0 <= k < i ==> jobslist[k] == Job(jobsdirs[k], Link(host, jobsdirs[k]))
    {
      var entry := Job(jobsdirs[i], Link(host, jobsdirs[i]));
      jobslist := jobslist + [entry];
    }
  }

  /** A link identifies the record it belongs to. */
  lemma LinksIdentifyJobs(host: string, jobs: seq<Job>, i: nat, k: nat)
    requires forall j :: j in jobs ==> j.link == Link(host, j.job)
    requires i < |jobs| && k < |jobs| && jobs[i].link == jobs[k].link
    ensures jobs[i] == jobs[k]
  {
    assert jobs[i] in jobs && jobs[k] in jobs;
    LinkInjective(host, jobs[i].job, jobs[k].job);
  }

  /** What a GET of /api/v1/jobs lists, given the state of the jobs
      directory: the job directories in ascending name order, each with its
      link. Files in the jobs directory are not jobs. */
  ghost predicate JobsListing(host: string, jobsDir: DirRead, jobslist: seq<Job>) {
    && Sorted(JobNames(jobslist))
    && (forall j :: j in jobslist ==> j.link == Link(host, j.job))
    && (if jobsDir.Entries?
        then multiset(JobNames(jobslist)) == multiset(Names(Filter(jobsDir.entries, CheckDir)))
        else jobslist == [])
  }

  /** readdir("jobs", checkDir, "") followed by the list-building loop. */
  method ListJobs(host: string, jobsDir: DirRead) returns (jobslist: seq<Job>)
    ensures JobsListing(host, jobsDir, jobslist)
    ensures (!jobsDir.Entries? || forall e :: e in jobsDir.entries ==> e.kind != Directory) ==> jobslist == []
  {
    var jobsdirs := Readdir(jobsDir, CheckDir, "");
    jobslist := BuildJobsList(host, jobsdirs);
    if jobsDir.Entries? && forall e :: e in jobsDir.entries ==> e.kind != Directory {
      FilterNoneAccepted(jobsDir.entries, CheckDir);
      assert |jobsdirs| == |multiset(jobsdirs)| == 0;
    }
  }

  /** Listing twice with no job created in between gives the same ordered
      output: the listing is a function of the directory's contents. */
  lemma {:induction false} JobsListingDeterministic(host: string, jobsDir: DirRead, l1: seq<Job>, l2: seq<Job>)
    requires JobsListing(host, jobsDir, l1) && JobsListing(host, jobsDir, l2)
    ensures l1 == l2
  {
    SortedUnique(JobNames(l1), JobNames(l2));
    forall i | 0 <= i < |l1| ensures l1[i] == l2[i] {
      assert l1[i] in l1 && l2[i] in l2;
      assert l1[i].job == JobNames(l1)[i];
    }
  }
}
