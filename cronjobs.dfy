/** services/cronjobs_svc.go: listing scheduled runs, reading one back with the
    JSON its pods printed, and the checks made before a CronJob is created. */
module CronJobs {
  import opened Base
  import opened Foreign
  import opened Models
  import opened Kube
  import opened PodSpecs
  import Jobs

  /** One listed CronJob: its name and its `owner` label. */
  function CronJobSummary(item: CronJobItem): (job: CronJob)
    ensures job.id == item.name && job.owner == Get(item.labels, "owner")
    ensures job == EmptyCronJob.(id := job.id, owner := job.owner)
  {
    EmptyCronJob.(id := item.name, owner := Get(item.labels, "owner"))
  }

  /** `ListCronJobs` (services/cronjobs_svc.go:38-66): the same selectors as the job listing. */
  method ListCronJobs(kube: Cluster, authList: seq<string>) returns (r: Result<seq<CronJob>>)
    ensures |authList| == 0 ==> r == Ok([])
    ensures |authList| > 0 && Merged(Jobs.SelectorsFor(authList), kube.workloads.listCronJobs).Err? ==>
      r == Err(Merged(Jobs.SelectorsFor(authList), kube.workloads.listCronJobs).error)
    ensures |authList| > 0 && Merged(Jobs.SelectorsFor(authList), kube.workloads.listCronJobs).Ok? ==>
      var items := Merged(Jobs.SelectorsFor(authList), kube.workloads.listCronJobs).value;
      r.Ok? && |r.value| == |items| && forall i :: 0 <= i < |items| ==> r.value[i] == CronJobSummary(items[i])
  {
    if |authList| == 0 {
      return Ok([]);
    }
    var selectors := Jobs.TaskSelectors(authList);
    var items := kube.ListCronJobs(selectors);
    if items.Err? {
      return Err(items.error);
    }
    var jobs: seq<CronJob> := [];
    for i := 0 to |items.value|
      invariant |jobs| == i
      invariant forall k :: 0 <= k < i ==> jobs[k] == CronJobSummary(items.value[k])
    {
      jobs := jobs + [CronJobSummary(items.value[i])];
    }
    r := Ok(jobs);
  }

  // ---------------------------------------------------------------------
  // The JSON a run prints between its markers
  // ---------------------------------------------------------------------

  /** The characters `strings.NewReplacer("\n", "", "\\", "")` removes. */
  predicate Noise(c: char) {
    c == '\n' || c == '\\'
  }

  /** The span with every newline and backslash removed. */
  function StripNoise(s: string): (r: string)
    ensures forall i :: 0 <= i < |r| ==> !Noise(r[i])
    ensures |r| <= |s|
  {
    if s == [] then []
    else (if Noise(s[0]) then [] else [s[0]]) + StripNoise(s[1..])
  }

  /** Stripping works piece by piece. */
  lemma {:induction false} StripAppend(a: string, b: string)
    ensures StripNoise(a + b) == StripNoise(a) + StripNoise(b)
  {
    if a != [] {
      assert (a + b)[0] == a[0] && (a + b)[1..] == a[1..] + b;
      StripAppend(a[1..], b);
    } else {
      assert a + b == b;
    }
  }

  /** A span without newlines or backslashes is parsed as it is. */
  lemma {:induction false} StripClean(s: string)
    requires forall i :: 0 <= i < |s| ==> !Noise(s[i])
    ensures StripNoise(s) == s
  {
    if s != [] {
      StripClean(s[1..]);
    }
  }

  /** Stripping twice is stripping once. */
  lemma StripIdempotent(s: string)
    ensures StripNoise(StripNoise(s)) == StripNoise(s)
  {
    StripClean(StripNoise(s));
  }

  /** What `JsonData` holds when the markers enclose text that does not decode. */
  const ParseFailure: Object := map["error" := JString("failed to parse JSON")]

  /** The JSON extracted from a run's output (services/cronjobs_svc.go:107-121): tried only on
      non-empty output with a delimited span; a decode failure is reported in the data, not as an error. */
  function ExtractJson(stdout: string, ext: Externals): (r: Option<Object>)
    ensures stdout == "" || ext.findDelimited(stdout).None? ==> r.None?
    ensures stdout != "" && ext.findDelimited(stdout).Some? ==>
      var text := StripNoise(ext.findDelimited(stdout).value);
      r == Some(if ext.unmarshalObject(text).Some? then ext.unmarshalObject(text).value else ParseFailure)
  {
    if stdout == "" then None
    else match ext.findDelimited(stdout)
      case None => None
      case Some(span) =>
        match ext.unmarshalObject(StripNoise(span))
        case None => Some(ParseFailure)
        case Some(data) => Some(data)
  }

  /** `GetCronJob` (services/cronjobs_svc.go:68-124). The partial CronJob Go returns beside an
      error is not kept. */
  method GetCronJob(kube: Cluster, ext: Externals, username: string, jobID: string) returns (r: Result<CronJob>)
    ensures var pods := kube.workloads.listPods(Jobs.PodSelector(username, jobID));
      pods.Ok? && pods.value != [] && kube.workloads.getCronJob(jobID).Ok? ==>
        (r.Ok? <==> Jobs.PodLogs(kube.workloads, Jobs.PodSelector(username, jobID)).Ok?)
    ensures r.Ok? ==> Jobs.PodLogs(kube.workloads, Jobs.PodSelector(username, jobID)) == Ok(r.value.stdout)
    ensures r.Ok? ==> kube.workloads.getCronJob(jobID).Ok?
    ensures r.Ok? ==>
      var item := kube.workloads.getCronJob(jobID).value;
      r.value == EmptyCronJob.(id := item.name, owner := Get(item.labels, "owner"), stdout := r.value.stdout,
                               jsonData := ExtractJson(r.value.stdout, ext))
    ensures r.Err? && kube.workloads.listPods(Jobs.PodSelector(username, jobID)).Err? ==>
      r.error == kube.workloads.listPods(Jobs.PodSelector(username, jobID)).error
    ensures r.Err? && kube.workloads.listPods(Jobs.PodSelector(username, jobID)).Ok? ==>
      if kube.workloads.listPods(Jobs.PodSelector(username, jobID)).value == [] then r.error == Jobs.NoPods
      else if kube.workloads.getCronJob(jobID).Err? then r.error == kube.workloads.getCronJob(jobID).error
      else Jobs.PodLogs(kube.workloads, Jobs.PodSelector(username, jobID)) == Err(r.error)
  {
    var selector := "job-name=" + jobID;
    if username != "" {
      selector := selector + ",owner=" + username;
    }
    var pods := kube.workloads.listPods(selector);
    if pods.Err? {
      return Err(pods.error);
    }
    if |pods.value| == 0 {
      return Err(Jobs.NoPods);
    }
    var job := kube.workloads.getCronJob(jobID);
    if job.Err? {
      return Err(job.error);
    }
    var logs := CollectEach(pods.value, kube.workloads.podLogs);
    if logs.Err? {
      return Err(logs.error);
    }
    var status := EmptyCronJob.(id := job.value.name, owner := Get(job.value.labels, "owner"), stdout := logs.value);
    if status.stdout != "" {
      var span := ext.findDelimited(status.stdout);
      if span.Some? {
        var text := StripNoise(span.value);
        var data := ext.unmarshalObject(text);
        if data.None? {
          return Ok(status.(jsonData := Some(ParseFailure)));
        }
        status := status.(jsonData := data);
      }
    }
    r := Ok(status);
  }

  // ---------------------------------------------------------------------
  // CreateCronJob
  // ---------------------------------------------------------------------

  /** The schema gate (services/cronjobs_svc.go:135-150): a Task with a schema has the extra
      variables validated against it; text that does not decode is validated as `{}`. */
  function SchemaGate(task: Record, extraVars: string, ext: Externals): (err: Option<Error>)
    ensures Get(task, "schema") == "" ==> err.None?
    ensures Get(task, "schema") != "" ==>
      err == ext.againstSchema(task["schema"], ext.unmarshalObject(extraVars).GetOr(map[]))
  {
    if Get(task, "schema") != "" then ext.againstSchema(task["schema"], ext.unmarshalObject(extraVars).GetOr(map[]))
    else None
  }

  /** The branch a CronJob clones: the Runner's, or "main" when it names none. */
  function BranchOrMain(branch: string): (r: string)
    ensures r != ""
    ensures branch != "" ==> r == branch
    ensures branch == "" ==> r == "main"
  {
    if branch == "" then "main" else branch
  }

  /** `CreateCronJob` (services/cronjobs_svc.go:126-185): the CronJob answered holds only the id,
      which the creation call sets even when it fails. */
  method CreateCronJob(kube: Cluster, ext: Externals, username: string, taskName: string, extraVars: string)
    returns (job: CronJob, err: Option<Error>)
    ensures kube.GetConfigMap(taskName).Err? ==> job == EmptyCronJob && err == Some(kube.GetConfigMap(taskName).error)
    ensures kube.GetConfigMap(taskName).Ok? && SchemaGate(kube.GetConfigMap(taskName).value, extraVars, ext).Some? ==>
      job == EmptyCronJob && err == SchemaGate(kube.GetConfigMap(taskName).value, extraVars, ext)
    ensures kube.GetConfigMap(taskName).Ok? && SchemaGate(kube.GetConfigMap(taskName).value, extraVars, ext).None? ==>
      var task := kube.GetConfigMap(taskName).value;
      var runner := kube.GetConfigMap(Get(task, "runner"));
      var secret := kube.GetSecret(Get(task, "runner"));
      && (runner.Err? ==> job == EmptyCronJob && err == Some(runner.error))
      && (runner.Ok? && secret.Err? && !IsNotFound(secret.error) ==> job == EmptyCronJob && err == Some(secret.error))
      && (runner.Ok? && (secret.Ok? || IsNotFound(secret.error)) ==>
            var request := CronJobRequest(taskName, Get(runner.value, "image"), username, extraVars, Get(task, "command"),
                                          Jobs.RepoURL(Get(runner.value, "gitURL"), secret),
                                          BranchOrMain(Get(runner.value, "branch")));
            job == EmptyCronJob.(id := kube.workloads.createCronJob(request).0) &&
            err == kube.workloads.createCronJob(request).1)
  {
    var task := kube.GetConfigMap(taskName);
    if task.Err? {
      return EmptyCronJob, Some(task.error);
    }
    var runnerName := Get(task.value, "runner");
    if Get(task.value, "schema") != "" {
      var input := ext.unmarshalObject(extraVars).GetOr(map[]);
      var invalid := ext.againstSchema(task.value["schema"], input);
      if invalid.Some? {
        return EmptyCronJob, invalid;
      }
    }
    var runner := kube.GetConfigMap(runnerName);
    if runner.Err? {
      return EmptyCronJob, Some(runner.error);
    }
    var gitURL := Get(runner.value, "gitURL");
    var gitBranch := Get(runner.value, "branch");
    if gitBranch == "" {
      gitBranch := "main";
    }
    var secret := kube.GetSecret(runnerName);
    if secret.Err? {
      if !IsNotFound(secret.error) {
        return EmptyCronJob, Some(secret.error);
      }
    } else {
      var token := Get(secret.value, "token");
      if token != "" {
        gitURL := Jobs.WithToken(gitURL, token);
      }
    }
    var created := kube.workloads.createCronJob(
      CronJobRequest(taskName, Get(runner.value, "image"), username, extraVars, Get(task.value, "command"), gitURL, gitBranch));
    job := EmptyCronJob.(id := created.0);
    err := created.1;
  }
}
