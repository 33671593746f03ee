/** services/job_svc.go: listing a user's jobs, reading a job's output, and
    launching a Task as a Job (with the optional synchronous wait). The
    label-selector, log and git-URL helpers here are shared with the CronJob,
    Deployment and Runner services. */
module Jobs {
  import opened Base
  import opened Models
  import opened PodSpecs
  import opened Kube

  // ---------------------------------------------------------------------
  // Label selectors
  // ---------------------------------------------------------------------

  const TaskLabel := "task-name="

  /** The selectors for an authorisation list: none for `*` first, else one per id. */
  function SelectorsFor(authList: seq<string>): (selectors: seq<string>)
    requires |authList| > 0
    ensures authList[0] == "*" ==> selectors == []
    ensures authList[0] != "*" ==> |selectors| == |authList|
    ensures authList[0] != "*" ==> forall i :: 0 <= i < |authList| ==> selectors[i] == TaskLabel + authList[i]
  {
    if authList[0] == "*" then [] else seq(|authList|, i requires 0 <= i < |authList| => TaskLabel + authList[i])
  }

  /** Each selector names its id back: dropping the label prefix recovers the authorised id. */
  lemma SelectorsNameIds(authList: seq<string>, i: nat)
    requires |authList| > 0 && authList[0] != "*" && i < |authList|
    ensures SelectorsFor(authList)[i][..|TaskLabel|] == TaskLabel
    ensures SelectorsFor(authList)[i][|TaskLabel|..] == authList[i]
  {
    assert SelectorsFor(authList)[i] == TaskLabel + authList[i];
  }

  /** The loop that builds `labelSelector` (services/job_svc.go:42-46, and the same loop in
      the CronJob and Deployment services). */
  method TaskSelectors(authList: seq<string>) returns (selectors: seq<string>)
    requires |authList| > 0
    ensures selectors == SelectorsFor(authList)
  {
    selectors := [];
    if authList[0] != "*" {
      for i := 0 to |authList|
        invariant selectors == seq(i, k requires 0 <= k < i => TaskLabel + authList[k])
      {
        selectors := selectors + [TaskLabel + authList[i]];
      }
    }
  }

  /** The pod selector of a job, narrowed to its owner when a username is given. */
  function PodSelector(username: string, jobID: string): string {
    var selector := "job-name=" + jobID;
    if username != "" then selector + ",owner=" + username else selector
  }

  /** The pod selector is a comma-separated list whose terms give back the job id and,
      when given, the owner (for ids and usernames without commas). */
  lemma PodSelectorTerms(username: string, jobID: string)
    requires ',' !in jobID && ',' !in username
    ensures username == "" ==> Split(PodSelector(username, jobID), ',') == ["job-name=" + jobID]
    ensures username != "" ==> Split(PodSelector(username, jobID), ',') == ["job-name=" + jobID, "owner=" + username]
  {
    var first := "job-name=" + jobID;
    assert ',' !in first by {
      assert forall k :: 0 <= k < |first| ==> first[k] == (if k < 9 then "job-name="[k] else jobID[k - 9]);
    }
    SplitWord(first, ',');
    if username != "" {
      var second := "owner=" + username;
      assert ',' !in second by {
        assert forall k :: 0 <= k < |second| ==> second[k] == (if k < 6 then "owner="[k] else username[k - 6]);
      }
      SplitWord(second, ',');
      SplitAround(first, second, ',');
      assert PodSelector(username, jobID) == first + [','] + second;
    }
  }

  // ---------------------------------------------------------------------
  // Logs
  // ---------------------------------------------------------------------

  const NoPods := Failed("no pods found - check job ID")

  /** The output of the pods a selector matches: their logs concatenated in pod order. */
  function PodLogs(workloads: Workloads, selector: string): Result<string> {
    match workloads.listPods(selector)
    case Err(e) => Err(e)
    case Ok(pods) => if pods == [] then Err(NoPods) else Collect(pods, workloads.podLogs)
  }

  /** Zero pods is an error; otherwise the output is every pod's log, in order, and the first
      failing log read is the error. */
  lemma PodLogsResult(workloads: Workloads, selector: string)
    requires workloads.listPods(selector).Ok?
    ensures var pods := workloads.listPods(selector).value;
      && (pods == [] ==> PodLogs(workloads, selector) == Err(NoPods))
      && (pods != [] ==> (PodLogs(workloads, selector).Ok? <==> forall i :: 0 <= i < |pods| ==> workloads.podLogs(pods[i]).Ok?))
      && (PodLogs(workloads, selector).Ok? ==> PodLogs(workloads, selector).value == Flatten(Results(pods, workloads.podLogs)))
  {
    var pods := workloads.listPods(selector).value;
    if pods != [] {
      CollectOk(pods, workloads.podLogs);
    }
  }

  /** `GetJob` (services/job_svc.go:73-99). */
  method GetJob(kube: Cluster, username: string, jobID: string) returns (r: Result<string>)
    ensures r == PodLogs(kube.workloads, PodSelector(username, jobID))
  {
    var selector := "job-name=" + jobID;
    if username != "" {
      selector := selector + ",owner=" + username;
    }
    var pods := kube.workloads.listPods(selector);
    if pods.Err? {
      return Err(pods.error);
    }
    if |pods.value| == 0 {
      return Err(NoPods);
    }
    r := CollectEach(pods.value, kube.workloads.podLogs);
  }

  // ---------------------------------------------------------------------
  // Listing
  // ---------------------------------------------------------------------

  /** `Format` on the nil `Status.StartTime` of a job that has not started (or is suspended)
      dereferences a nil pointer; gin's recovery handler answers it with 500. */
  const NoStartTime := Panic("invalid memory address or nil pointer dereference")

  /** Every listed job has started, so each summary can format its start time. */
  predicate AllStarted(items: seq<JobItem>) {
    forall i :: 0 <= i < |items| ==> items[i].status.startTime.Some?
  }

  /** One listed job: its name, the `owner` label, the start time and the status counters;
      the completion time only when the job has one. A job without a start time panics. */
  function JobSummary(item: JobItem): (r: Result<Job>)
    ensures r.Err? <==> item.status.startTime.None?
    ensures r.Err? ==> r.error == NoStartTime
    ensures r.Ok? ==>
      var job := r.value;
      && job.id == item.name && job.owner == Get(item.labels, "owner")
      && job.startTime == item.status.startTime.value
      && job.completionTime == (if item.status.completionTime.Some? then item.status.completionTime.value else "")
      && job.failed == item.status.failed && job.completed == item.status.succeeded
      && job.stdout == "" && job.jsonData == None
  {
    match item.status.startTime
    case None => Err(NoStartTime)
    case Some(start) =>
      var job := EmptyJob.(id := item.name, owner := Get(item.labels, "owner"), startTime := start,
                           failed := item.status.failed, completed := item.status.succeeded);
      match item.status.completionTime
      case Some(t) => Ok(job.(completionTime := t))
      case None => Ok(job)
  }

  /** The loop that maps listed jobs (services/job_svc.go:53-66, services/runner_svc.go:199-210):
      the panic of the first job without a start time ends the listing. */
  method Summaries(items: seq<JobItem>) returns (r: Result<seq<Job>>)
    ensures r.Err? <==> !AllStarted(items)
    ensures r.Err? ==> r.error == NoStartTime
    ensures r.Ok? ==> |r.value| == |items| && forall i :: 0 <= i < |items| ==> Ok(r.value[i]) == JobSummary(items[i])
  {
    var jobs := [];
    for i := 0 to |items|
      invariant |jobs| == i
      invariant forall k :: 0 <= k < i ==> items[k].status.startTime.Some? && Ok(jobs[k]) == JobSummary(items[k])
    {
      var job := JobSummary(items[i]);
      if job.Err? {
        return Err(job.error);
      }
      jobs := jobs + [job.value];
    }
    r := Ok(jobs);
  }

  /** `ListJobs` (services/job_svc.go:34-71). */
  method ListJobs(kube: Cluster, authList: seq<string>) returns (r: Result<seq<Job>>)
    ensures |authList| == 0 ==> r == Ok([])
    ensures |authList| > 0 && Merged(SelectorsFor(authList), kube.workloads.listJobs).Err? ==>
      r == Err(Merged(SelectorsFor(authList), kube.workloads.listJobs).error)
    ensures |authList| > 0 && Merged(SelectorsFor(authList), kube.workloads.listJobs).Ok? ==>
      var items := Merged(SelectorsFor(authList), kube.workloads.listJobs).value;
      && (r.Err? <==> !AllStarted(items))
      && (r.Err? ==> r.error == NoStartTime)
      && (r.Ok? ==> |r.value| == |items| && forall i :: 0 <= i < |items| ==> Ok(r.value[i]) == JobSummary(items[i]))
  {
    if |authList| == 0 {
      return Ok([]);
    }
    var selectors := TaskSelectors(authList);
    var items := kube.ListJobs(selectors);
    if items.Err? {
      return Err(items.error);
    }
    r := Summaries(items.value);
  }

  // ---------------------------------------------------------------------
  // The git URL with the runner's token
  // ---------------------------------------------------------------------

  const SchemeSep := "://"

  /** `strings.Replace(gitURL, "://", "://"+token+":@", 1)`. */
  function WithToken(gitURL: string, token: string): string {
    ReplaceFirst(gitURL, SchemeSep, SchemeSep + token + ":@")
  }

  /** Two texts that agree up to `i` agree on every slice that ends by `i`. */
  lemma PrefixAgrees(s: string, t: string, i: nat, j: nat, n: nat)
    requires i <= |s| && i <= |t| && s[..i] == t[..i] && j + n <= i
    ensures s[j..j + n] == t[j..j + n]
  {
    assert s[j..j + n] == s[..i][j..j + n];
    assert t[j..j + n] == t[..i][j..j + n];
  }

  /** A tagged separator starts with the plain separator. */
  lemma TaggedHasSep(u: string, token: string, j: nat)
    requires OccursAt(u, SchemeSep + token + ":@", j)
    ensures OccursAt(u, SchemeSep, j)
  {
    var tagged := SchemeSep + token + ":@";
    assert u[j..j + 3] == u[j..j + |tagged|][..3];
    assert tagged[..3] == SchemeSep;
  }

  /** Before the spliced-in tag, the rewritten URL holds no tagged separator: up to the first
      plain separator the URL had none, and one cannot straddle the tag's own `:` at `i`. */
  lemma NoTagBefore(gitURL: string, token: string, i: nat, j: nat)
    requires IndexOf(gitURL, SchemeSep) == Some(i) && j < i
    ensures !OccursAt(gitURL[..i] + (SchemeSep + token + ":@") + gitURL[i + 3..], SchemeSep + token + ":@", j)
  {
    var tagged := SchemeSep + token + ":@";
    var s := gitURL[..i] + tagged + gitURL[i + 3..];
    if j + |tagged| <= |s| {
      if j + 3 <= i {
        assert s[..i] == gitURL[..i];
        PrefixAgrees(s, gitURL, i, j, 3);
        assert !OccursAt(gitURL, SchemeSep, j);
        assert s[j..j + 3] == s[j..j + |tagged|][..3];
      } else {
        assert s[j..j + |tagged|][i - j] == s[i];
        assert tagged[i - j] == '/';
      }
    }
  }

  /** Taking the tag out again restores the URL. */
  lemma Untag(gitURL: string, token: string, i: nat)
    requires OccursAt(gitURL, SchemeSep, i)
    ensures var s := gitURL[..i] + (SchemeSep + token + ":@") + gitURL[i + 3..];
      OccursAt(s, SchemeSep + token + ":@", i) && s[..i] + SchemeSep + s[i + |SchemeSep + token + ":@"|..] == gitURL
  {
    var tagged := SchemeSep + token + ":@";
    var s := gitURL[..i] + tagged + gitURL[i + 3..];
    assert s[..i] == gitURL[..i];
    assert s[i..i + |tagged|] == tagged;
    assert s[i + |tagged|..] == gitURL[i + 3..];
    assert gitURL == gitURL[..i] + gitURL[i..i + 3] + gitURL[i + 3..];
  }

  /** The rewrite loses nothing: replacing the first tagged separator back gives the URL,
      whatever the URL and token. */
  lemma WithTokenInverse(gitURL: string, token: string)
    ensures ReplaceFirst(WithToken(gitURL, token), SchemeSep + token + ":@", SchemeSep) == gitURL
  {
    var tagged := SchemeSep + token + ":@";
    match IndexOf(gitURL, SchemeSep)
    case None =>
      forall j: nat ensures !OccursAt(gitURL, tagged, j) {
        if OccursAt(gitURL, tagged, j) {
          TaggedHasSep(gitURL, token, j);
        }
      }
      assert IndexOf(gitURL, tagged).None?;
    case Some(i) =>
      var s := gitURL[..i] + tagged + gitURL[i + 3..];
      assert WithToken(gitURL, token) == s;
      forall j: nat | j < i ensures !OccursAt(s, tagged, j) {
        NoTagBefore(gitURL, token, i, j);
      }
      Untag(gitURL, token, i);
      assert IndexOf(s, tagged) == Some(i);
  }

  /** The clone URL a run uses: the runner's URL, with the token of the runner's Secret
      spliced in when that Secret exists and holds a non-empty token. */
  function RepoURL(gitURL: string, secret: Result<Record>): string {
    if secret.Ok? && Get(secret.value, "token") != "" then WithToken(gitURL, Get(secret.value, "token"))
    else gitURL
  }

  // ---------------------------------------------------------------------
  // The synchronous wait
  // ---------------------------------------------------------------------

  /** `wait.Poll(100*time.Millisecond, 20*time.Second, …)` checks at most this often. */
  const PollChecks := 200

  predicate Finished(status: JobStatus) {
    status.succeeded != 0 || status.failed != 0
  }

  datatype PollOutcome = Done(checks: nat) | TimedOut | Stopped(error: Error)

  /** The k-th check found the job still running. */
  predicate Running(poll: (string, nat) -> Result<JobStatus>, jobID: string, k: nat) {
    poll(jobID, k).Ok? && !Finished(poll(jobID, k).value)
  }

  /** The polling loop: stop when the job has succeeded or failed, when a GetJob fails,
      or after the last check. */
  method Poll(poll: (string, nat) -> Result<JobStatus>, jobID: string) returns (outcome: PollOutcome)
    ensures outcome.Done? ==>
      && 0 < outcome.checks <= PollChecks
      && poll(jobID, outcome.checks - 1).Ok? && Finished(poll(jobID, outcome.checks - 1).value)
      && forall k: nat :: k < outcome.checks - 1 ==> Running(poll, jobID, k)
    ensures outcome.TimedOut? ==> forall k: nat :: k < PollChecks ==> Running(poll, jobID, k)
    ensures outcome.Stopped? ==>
      exists k: nat :: k < PollChecks && poll(jobID, k) == Err(outcome.error) &&
                       forall j: nat :: j < k ==> Running(poll, jobID, j)
  {
    for k := 0 to PollChecks
      invariant forall j: nat :: j < k ==> Running(poll, jobID, j)
    {
      var status := poll(jobID, k);
      if status.Err? {
        return Stopped(status.error);
      }
      if Finished(status.value) {
        return Done(k + 1);
      }
    }
    outcome := TimedOut;
  }

  // ---------------------------------------------------------------------
  // CreateJob
  // ---------------------------------------------------------------------

  /** `CreateJob` (services/job_svc.go:101-155): the job id and, for a synchronous Task, the
      job's output. The wait's own outcome is discarded. */
  method CreateJob(kube: Cluster, username: string, taskName: string, extraVars: string)
    returns (jobID: string, r: Result<string>)
    ensures kube.GetConfigMap(taskName).Err? ==> jobID == "" && r == Err(kube.GetConfigMap(taskName).error)
    ensures kube.GetConfigMap(taskName).Ok? ==>
      var task := kube.GetConfigMap(taskName).value;
      var runner := kube.GetConfigMap(Get(task, "runner"));
      var secret := kube.GetSecret(Get(task, "runner"));
      && (runner.Err? ==> jobID == "" && r == Err(runner.error))
      && (runner.Ok? && secret.Err? && !IsNotFound(secret.error) ==> jobID == "" && r == Err(secret.error))
      && (runner.Ok? && (secret.Ok? || IsNotFound(secret.error)) ==>
            var request := JobRequest(taskName, Get(runner.value, "image"), username, extraVars,
                                      Get(task, "command"), RepoURL(Get(runner.value, "gitURL"), secret));
            && (kube.workloads.createJob(request).Err? ==> jobID == "" && r == Err(kube.workloads.createJob(request).error))
            && (kube.workloads.createJob(request).Ok? ==>
                  && jobID == kube.workloads.createJob(request).value
                  && r == (if Get(task, "synchronous") == "true" then PodLogs(kube.workloads, PodSelector(username, jobID))
                           else Ok(""))))
  {
    var task := kube.GetConfigMap(taskName);
    if task.Err? {
      return "", Err(task.error);
    }
    var runnerName := Get(task.value, "runner");
    var runner := kube.GetConfigMap(runnerName);
    if runner.Err? {
      return "", Err(runner.error);
    }
    var gitURL := Get(runner.value, "gitURL");
    var secret := kube.GetSecret(runnerName);
    if secret.Err? {
      if !IsNotFound(secret.error) {
        return "", Err(secret.error);
      }
    } else {
      var token := Get(secret.value, "token");
      if token != "" {
        gitURL := ReplaceFirst(gitURL, SchemeSep, SchemeSep + token + ":@");
      }
    }
    var created := kube.workloads.createJob(
      JobRequest(taskName, Get(runner.value, "image"), username, extraVars, Get(task.value, "command"), gitURL));
    if created.Err? {
      return "", Err(created.error);
    }
    jobID := created.value;
    if Get(task.value, "synchronous") == "true" {
      var _ := Poll(kube.workloads.pollJob, jobID);
      r := GetJob(kube, username, jobID);
      return;
    }
    r := Ok("");
  }
}
