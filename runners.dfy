/** services/runner_svc.go: Runners are ConfigMaps with an `image`; a Runner's
    git token lives in a Secret of the same name under the key `token`. */
module Runners {
  import opened Base
  import opened Models
  import opened Kube
  import opened Catalog
  import Jobs

  const TokenKey := "token"

  /** `ListRunners` (services/runner_svc.go:36-63): nothing is hidden from a Runner listing. */
  method ListRunners(kube: Cluster, authList: seq<string>) returns (r: Result<seq<Record>>)
    ensures |authList| == 0 ==> r == Ok([])
    ensures |authList| > 0 && kube.ListConfigMaps().Err? ==> r == Err(kube.ListConfigMaps().error)
    ensures |authList| > 0 && kube.ListConfigMaps().Ok? ==> r == Ok(Listing(kube.ListConfigMaps().value, authList, ImageKey, {}))
  {
    if |authList| == 0 {
      return Ok([]);
    }
    var configMaps := kube.ListConfigMaps();
    if configMaps.Err? {
      return Err(configMaps.error);
    }
    var runners := ListRecords(configMaps.value, authList, ImageKey, {});
    r := Ok(runners);
  }

  function RunnerNotFound(name: string): Error {
    Failed("runner " + name + " not found")
  }

  /** What `GetRunner` shows for a ConfigMap lookup and a Secret lookup: the Runner record,
      with the Secret's token added when there is a Secret. */
  function RunnerView(configMap: Result<Record>, secret: Result<Record>, name: string): (r: Result<Record>)
    ensures configMap.Err? ==> r == Err(configMap.error)
    ensures configMap.Ok? && Get(configMap.value, ImageKey) == "" ==> r == Err(RunnerNotFound(name))
    ensures configMap.Ok? && Get(configMap.value, ImageKey) != "" ==>
      (r.Ok? <==> secret.Ok? || IsNotFound(secret.error))
    ensures configMap.Ok? && Get(configMap.value, ImageKey) != "" && secret.Err? && !IsNotFound(secret.error) ==>
      r == Err(secret.error)
    ensures r.Ok? ==> Get(r.value, ImageKey) != ""
    ensures r.Ok? ==> forall k :: k in configMap.value && k != TokenKey ==> k in r.value && r.value[k] == configMap.value[k]
    ensures r.Ok? ==> r.value.Keys == configMap.value.Keys + (if secret.Ok? then {TokenKey} else {})
    ensures r.Ok? && secret.Ok? ==> r.value[TokenKey] == Get(secret.value, TokenKey)
  {
    match configMap
    case Err(e) => Err(e)
    case Ok(data) =>
      if Get(data, ImageKey) == "" then Err(RunnerNotFound(name))
      else match secret
        case Err(e) => if IsNotFound(e) then Ok(data) else Err(e)
        case Ok(s) => Ok(data[TokenKey := Get(s, TokenKey)])
  }

  /** `GetRunner` (services/runner_svc.go:65-86). */
  method GetRunner(kube: Cluster, name: string) returns (r: Result<Record>)
    ensures r == RunnerView(kube.GetConfigMap(name), kube.GetSecret(name), name)
  {
    var configMap := kube.GetConfigMap(name);
    if configMap.Err? {
      return Err(configMap.error);
    }
    if Get(configMap.value, ImageKey) == "" {
      return Err(RunnerNotFound(name));
    }
    var secret := kube.GetSecret(name);
    if secret.Err? {
      if IsNotFound(secret.error) {
        return Ok(configMap.value);
      }
      return Err(secret.error);
    }
    r := Ok(configMap.value[TokenKey := Get(secret.value, TokenKey)]);
  }

  /** The ConfigMap data a Runner is stored as: everything but the token. */
  function RunnerRecord(runner: Runner): (r: Record)
    ensures r.Keys == {"name", ImageKey, "gitURL", "branch"}
    ensures TokenKey !in r
    ensures Get(r, "name") == runner.name && Get(r, ImageKey) == runner.image
    ensures Get(r, "gitURL") == runner.gitURL && Get(r, "branch") == runner.branch
  {
    map["name" := runner.name, ImageKey := runner.image, "gitURL" := runner.gitURL, "branch" := runner.branch]
  }

  /** The Secret a Runner's token is stored in. */
  function TokenSecret(runner: Runner): Record {
    map[TokenKey := runner.token]
  }

  /** A Runner stored with its token reads back with every field it was submitted with; one
      stored without a Secret reads back without a token. */
  lemma RunnerReadsBack(runner: Runner)
    requires runner.image != ""
    ensures RunnerView(Ok(RunnerRecord(runner)), Ok(TokenSecret(runner)), runner.name) ==
      Ok(map["name" := runner.name, ImageKey := runner.image, "gitURL" := runner.gitURL,
             "branch" := runner.branch, TokenKey := runner.token])
    ensures RunnerView(Ok(RunnerRecord(runner)), Err(NotFound(runner.name)), runner.name) == Ok(RunnerRecord(runner))
  {
    var r := RunnerView(Ok(RunnerRecord(runner)), Ok(TokenSecret(runner)), runner.name);
    var expected := map["name" := runner.name, ImageKey := runner.image, "gitURL" := runner.gitURL,
                        "branch" := runner.branch, TokenKey := runner.token];
    assert r.value.Keys == expected.Keys;
    assert r.value == expected;
  }

  /** The record `GetRunner` shows for a Runner stored by `UpdateRunner`: with its token if it has one. */
  function AsRead(runner: Runner): Record {
    if runner.token != "" then RunnerRecord(runner)[TokenKey := runner.token] else RunnerRecord(runner)
  }

  // ---------------------------------------------------------------------
  // CreateRunner
  // ---------------------------------------------------------------------

  /** The error the ConfigMap Create of a Runner meets. */
  function CreateConfigMapErr(items: seq<Item>, faults: set<Api>, name: string): (err: Option<Error>)
    ensures err.None? <==> ConfigMapCreate !in faults && !Named(items, name)
  {
    if ConfigMapCreate in faults then Some(Unavailable(ConfigMapCreate))
    else if Named(items, name) then Some(Conflict(name))
    else None
  }

  /** The error the Secret Create of a Runner's token meets. */
  function CreateSecretErr(secrets: map<string, Record>, faults: set<Api>, name: string): (err: Option<Error>)
    ensures err.None? <==> SecretCreate !in faults && name !in secrets
  {
    if SecretCreate in faults then Some(Unavailable(SecretCreate))
    else if name in secrets then Some(Conflict(name))
    else None
  }

  /** What `CreateRunner` answers as written (services/runner_svc.go:94-106): when a token is
      given, the Secret Create's error replaces the ConfigMap Create's, so a successful Secret
      Create hides a failed ConfigMap Create. */
  function CreateRunnerReplyAsWritten(items: seq<Item>, secrets: map<string, Record>, faults: set<Api>, runner: Runner)
    : (Option<Record>, Option<Error>)
  {
    var cmErr := CreateConfigMapErr(items, faults, runner.name);
    var configMap := if cmErr.None? then Some(RunnerRecord(runner)) else None;
    if runner.token != "" then
      var secErr := CreateSecretErr(secrets, faults, runner.name);
      if secErr.Some? then (None, secErr) else (configMap, None)
    else (configMap, cmErr)
  }

  /** The discrepancy: creating a Runner whose name is taken, with a token and no Secret yet,
      answers with no ConfigMap and no error. */
  lemma CreateRunnerHidesConflict(items: seq<Item>, secrets: map<string, Record>, runner: Runner)
    requires Named(items, runner.name) && runner.token != "" && runner.name !in secrets
    ensures CreateRunnerReplyAsWritten(items, secrets, {}, runner) == (None, None)
  {
  }

  /** `CreateRunner` as written (services/runner_svc.go:88-107): the token's Secret is created
      even when the ConfigMap Create failed. */
  method CreateRunnerAsWritten(kube: Cluster, runner: Runner) returns (configMap: Option<Record>, err: Option<Error>)
    modifies kube
    ensures (configMap, err) == CreateRunnerReplyAsWritten(old(kube.configMaps), old(kube.secrets), kube.faults, runner)
    ensures kube.configMaps == if CreateConfigMapErr(old(kube.configMaps), kube.faults, runner.name).None?
      then old(kube.configMaps) + [Item(runner.name, RunnerRecord(runner))] else old(kube.configMaps)
    ensures kube.secrets == if runner.token != "" && CreateSecretErr(old(kube.secrets), kube.faults, runner.name).None?
      then old(kube.secrets)[runner.name := TokenSecret(runner)] else old(kube.secrets)
  {
    var data := RunnerRecord(runner);
    var created := kube.CreateOrUpdateConfigMap(data, "create");
    configMap := if created.Ok? then created.value else None;
    err := if created.Err? then Some(created.error) else None;
    if runner.token != "" {
      var secret := kube.CreateOrUpdateSecret(runner.name, TokenSecret(runner), "create");
      if secret.Err? {
        return None, Some(secret.error);
      }
      err := None;
    }
  }

  /** What `CreateRunner` evidently means to answer: the first failed Create's error, with no
      ConfigMap, or the stored Runner record. */
  function CreateRunnerReply(items: seq<Item>, secrets: map<string, Record>, faults: set<Api>, runner: Runner)
    : (reply: (Option<Record>, Option<Error>))
    ensures reply.1.None? <==> CreateConfigMapErr(items, faults, runner.name).None? &&
                               (runner.token != "" ==> CreateSecretErr(secrets, faults, runner.name).None?)
    ensures reply.0.Some? <==> reply.1.None?
    ensures reply.0.Some? ==> reply.0.value == RunnerRecord(runner)
    ensures Named(items, runner.name) ==> reply.1.Some?
  {
    var cmErr := CreateConfigMapErr(items, faults, runner.name);
    if cmErr.Some? then (None, cmErr)
    else if runner.token != "" && CreateSecretErr(secrets, faults, runner.name).Some? then
      (None, CreateSecretErr(secrets, faults, runner.name))
    else (Some(RunnerRecord(runner)), None)
  }

  /** `CreateRunner`, returning the ConfigMap Create's error before touching the Secret. */
  method CreateRunner(kube: Cluster, runner: Runner) returns (configMap: Option<Record>, err: Option<Error>)
    modifies kube
    ensures (configMap, err) == CreateRunnerReply(old(kube.configMaps), old(kube.secrets), kube.faults, runner)
    ensures kube.configMaps == if CreateConfigMapErr(old(kube.configMaps), kube.faults, runner.name).None?
      then old(kube.configMaps) + [Item(runner.name, RunnerRecord(runner))] else old(kube.configMaps)
    ensures kube.secrets == if CreateConfigMapErr(old(kube.configMaps), kube.faults, runner.name).None? &&
                               runner.token != "" && CreateSecretErr(old(kube.secrets), kube.faults, runner.name).None?
      then old(kube.secrets)[runner.name := TokenSecret(runner)] else old(kube.secrets)
    ensures err.None? ==> Lookup(kube.configMaps, runner.name) == Some(RunnerRecord(runner))
  {
    var data := RunnerRecord(runner);
    var created := kube.CreateOrUpdateConfigMap(data, "create");
    if created.Err? {
      return None, Some(created.error);
    }
    assert Lookup(kube.configMaps, runner.name) == Some(data);
    if runner.token != "" {
      var secret := kube.CreateOrUpdateSecret(runner.name, TokenSecret(runner), "create");
      if secret.Err? {
        return None, Some(secret.error);
      }
    }
    configMap, err := Some(data), None;
  }

  // ---------------------------------------------------------------------
  // UpdateRunner
  // ---------------------------------------------------------------------

  /** The error the token step of `UpdateRunner` cannot tolerate (services/runner_svc.go:125-148):
      with a token, a failed Secret Get or write; without one, a failed Secret Delete other than NotFound. */
  function TokenStepErr(secrets: map<string, Record>, faults: set<Api>, runner: Runner): Option<Error> {
    if runner.token != "" then
      if SecretGet in faults then Some(Unavailable(SecretGet))
      else if runner.name in secrets then (if SecretUpdate in faults then Some(Unavailable(SecretUpdate)) else None)
      else if SecretCreate in faults then Some(Unavailable(SecretCreate))
      else None
    else if SecretDelete in faults then Some(Unavailable(SecretDelete))
    else None
  }

  /** The error the ConfigMap steps of `UpdateRunner` meet: the Get, then the Update. */
  function UpdateConfigMapErr(items: seq<Item>, faults: set<Api>, name: string): (err: Option<Error>)
    ensures err.None? <==> ConfigMapGet !in faults && ConfigMapUpdate !in faults && Named(items, name)
  {
    if ConfigMapGet in faults then Some(Unavailable(ConfigMapGet))
    else if !Named(items, name) then Some(NotFound(name))
    else if ConfigMapUpdate in faults then Some(Unavailable(ConfigMapUpdate))
    else None
  }

  /** What `UpdateRunner` answers as written (services/runner_svc.go:109-151): the NotFound that
      the token step tolerates stays in the outer `err`, because the Secret write assigns a new
      `err` in an inner scope; so a Runner that had no Secret is reported NotFound after the update. */
  function UpdateRunnerReplyAsWritten(items: seq<Item>, secrets: map<string, Record>, faults: set<Api>, runner: Runner)
    : (Option<Record>, Option<Error>)
  {
    var cmErr := UpdateConfigMapErr(items, faults, runner.name);
    if cmErr.Some? then (None, cmErr)
    else
      var stepErr := TokenStepErr(secrets, faults, runner);
      if stepErr.Some? then (None, stepErr)
      else (Some(RunnerRecord(runner)), if runner.name in secrets then None else Some(NotFound(runner.name)))
  }

  /** The discrepancy: updating an existing Runner that has no Secret reports NotFound, though
      the ConfigMap was updated. */
  lemma UpdateRunnerReportsNotFound(items: seq<Item>, secrets: map<string, Record>, runner: Runner)
    requires Named(items, runner.name) && runner.name !in secrets
    ensures UpdateRunnerReplyAsWritten(items, secrets, {}, runner) == (Some(RunnerRecord(runner)), Some(NotFound(runner.name)))
  {
  }

  /** The Secrets after the token step: the token written, or the Secret deleted. */
  function TokenStepSecrets(secrets: map<string, Record>, runner: Runner): map<string, Record> {
    if runner.token != "" then secrets[runner.name := TokenSecret(runner)] else secrets - {runner.name}
  }

  /** `UpdateRunner` as written. */
  method UpdateRunnerAsWritten(kube: Cluster, runner: Runner) returns (configMap: Option<Record>, err: Option<Error>)
    modifies kube
    ensures (configMap, err) == UpdateRunnerReplyAsWritten(old(kube.configMaps), old(kube.secrets), kube.faults, runner)
    ensures UpdateConfigMapErr(old(kube.configMaps), kube.faults, runner.name).Some? ==>
      kube.configMaps == old(kube.configMaps) && kube.secrets == old(kube.secrets)
    ensures UpdateConfigMapErr(old(kube.configMaps), kube.faults, runner.name).None? ==>
      && kube.configMaps == Replace(old(kube.configMaps), Item(runner.name, RunnerRecord(runner)))
      && kube.secrets == if TokenStepErr(old(kube.secrets), kube.faults, runner).None?
                         then TokenStepSecrets(old(kube.secrets), runner) else old(kube.secrets)
  {
    var existing := kube.GetConfigMap(runner.name);
    if existing.Err? {
      return None, Some(existing.error);
    }
    var data := RunnerRecord(runner);
    var updated := kube.CreateOrUpdateConfigMap(data, "update");
    if updated.Err? {
      return None, Some(updated.error);
    }
    configMap := updated.value;
    err := None;
    if runner.token != "" {
      var operation := "update";
      var secret := kube.GetSecret(runner.name);
      err := if secret.Err? then Some(secret.error) else None;
      if secret.Err? {
        if IsNotFound(secret.error) {
          operation := "create";
        } else {
          return None, Some(secret.error);
        }
      }
      var written := kube.CreateOrUpdateSecret(runner.name, TokenSecret(runner), operation);
      if written.Err? {
        return None, Some(written.error);
      }
    } else {
      err := kube.DeleteSecret(runner.name);
      if err.Some? && !IsNotFound(err.value) {
        return None, err;
      }
    }
  }

  /** What `UpdateRunner` evidently means to answer: the updated record and no error once every
      step has succeeded. */
  function UpdateRunnerReply(items: seq<Item>, secrets: map<string, Record>, faults: set<Api>, runner: Runner)
    : (reply: (Option<Record>, Option<Error>))
    ensures reply.1.None? <==> UpdateConfigMapErr(items, faults, runner.name).None? && TokenStepErr(secrets, faults, runner).None?
    ensures reply.0.Some? <==> reply.1.None?
    ensures reply.0.Some? ==> reply.0.value == RunnerRecord(runner)
    ensures !Named(items, runner.name) ==> reply.1.Some?
  {
    var cmErr := UpdateConfigMapErr(items, faults, runner.name);
    if cmErr.Some? then (None, cmErr)
    else
      var stepErr := TokenStepErr(secrets, faults, runner);
      if stepErr.Some? then (None, stepErr) else (Some(RunnerRecord(runner)), None)
  }

  /** `UpdateRunner`, keeping the tolerated NotFound out of its answer. */
  method UpdateRunner(kube: Cluster, runner: Runner) returns (configMap: Option<Record>, err: Option<Error>)
    modifies kube
    ensures (configMap, err) == UpdateRunnerReply(old(kube.configMaps), old(kube.secrets), kube.faults, runner)
    ensures UpdateConfigMapErr(old(kube.configMaps), kube.faults, runner.name).Some? ==>
      kube.configMaps == old(kube.configMaps) && kube.secrets == old(kube.secrets)
    ensures UpdateConfigMapErr(old(kube.configMaps), kube.faults, runner.name).None? ==>
      && kube.configMaps == Replace(old(kube.configMaps), Item(runner.name, RunnerRecord(runner)))
      && kube.secrets == if TokenStepErr(old(kube.secrets), kube.faults, runner).None?
                         then TokenStepSecrets(old(kube.secrets), runner) else old(kube.secrets)
    ensures err.None? ==> Lookup(kube.configMaps, runner.name) == Some(RunnerRecord(runner))
    ensures err.None? && SecretGet !in kube.faults && runner.image != "" ==>
      RunnerView(kube.GetConfigMap(runner.name), kube.GetSecret(runner.name), runner.name) == Ok(AsRead(runner))
  {
    var existing := kube.GetConfigMap(runner.name);
    if existing.Err? {
      return None, Some(existing.error);
    }
    var data := RunnerRecord(runner);
    var updated := kube.CreateOrUpdateConfigMap(data, "update");
    if updated.Err? {
      return None, Some(updated.error);
    }
    assert Lookup(kube.configMaps, runner.name) == Some(data);
    if runner.token != "" {
      var operation := "update";
      var secret := kube.GetSecret(runner.name);
      if secret.Err? {
        if IsNotFound(secret.error) {
          operation := "create";
        } else {
          return None, Some(secret.error);
        }
      }
      var written := kube.CreateOrUpdateSecret(runner.name, TokenSecret(runner), operation);
      if written.Err? {
        return None, Some(written.error);
      }
    } else {
      var deleted := kube.DeleteSecret(runner.name);
      if deleted.Some? && !IsNotFound(deleted.value) {
        return None, deleted;
      }
    }
    configMap, err := Some(data), None;
    if runner.image != "" {
      RunnerReadsBack(runner);
    }
    assert runner.token != "" ==> AsRead(runner) == map["name" := runner.name, ImageKey := runner.image,
      "gitURL" := runner.gitURL, "branch" := runner.branch, TokenKey := runner.token];
  }

  // ---------------------------------------------------------------------
  // DeleteRunner and ListAllJobs
  // ---------------------------------------------------------------------

  function BoundError(task: string): Error {
    Failed("runner is bound with task: " + task + " , please delete that first")
  }

  /** `DeleteRunner` (services/runner_svc.go:153-178): refused while a Task names the Runner. */
  method DeleteRunner(kube: Cluster, name: string) returns (err: Option<Error>)
    modifies kube
    ensures ConfigMapList in kube.faults ==>
      err == Some(Unavailable(ConfigMapList)) && kube.configMaps == old(kube.configMaps) && kube.secrets == old(kube.secrets)
    ensures ConfigMapList !in kube.faults && BoundTask(old(kube.configMaps), name).Some? ==>
      && err == Some(BoundError(BoundTask(old(kube.configMaps), name).value))
      && kube.configMaps == old(kube.configMaps) && kube.secrets == old(kube.secrets)
    ensures ConfigMapList !in kube.faults && BoundTask(old(kube.configMaps), name).None? ==>
      if ConfigMapDelete in kube.faults || !Named(old(kube.configMaps), name) then
        err == Some(if ConfigMapDelete in kube.faults then Unavailable(ConfigMapDelete) else NotFound(name))
        && kube.configMaps == old(kube.configMaps) && kube.secrets == old(kube.secrets)
      else
        && kube.configMaps == Without(old(kube.configMaps), name)
        && (if SecretDelete in kube.faults then err == Some(Unavailable(SecretDelete)) && kube.secrets == old(kube.secrets)
            else err == None && kube.secrets == old(kube.secrets) - {name})
    ensures err.None? ==> forall i :: 0 <= i < |old(kube.configMaps)| ==> Get(old(kube.configMaps)[i].data, RunnerKey) != name
  {
    var configMaps := kube.ListConfigMaps();
    if configMaps.Err? {
      return Some(configMaps.error);
    }
    var bound := FindBoundTask(configMaps.value, name);
    if bound.Some? {
      return Some(BoundError(bound.value));
    }
    err := kube.DeleteConfigMap(name);
    if err.Some? {
      return;
    }
    var deleted := kube.DeleteSecret(name);
    if deleted.Some? && !IsNotFound(deleted.value) {
      return deleted;
    }
    err := None;
  }

  /** `ListAllJobs` (services/runner_svc.go:192-213): every Job, unselected. */
  method ListAllJobs(kube: Cluster) returns (r: Result<seq<Job>>)
    ensures kube.workloads.listJobs(None).Err? ==> r == Err(kube.workloads.listJobs(None).error)
    ensures kube.workloads.listJobs(None).Ok? ==>
      var items := kube.workloads.listJobs(None).value;
      && (r.Err? <==> !Jobs.AllStarted(items))
      && (r.Err? ==> r.error == Jobs.NoStartTime)
      && (r.Ok? ==> |r.value| == |items| && forall i :: 0 <= i < |items| ==> Ok(r.value[i]) == Jobs.JobSummary(items[i]))
  {
    var jobs := kube.workloads.listJobs(None);
    if jobs.Err? {
      return Err(jobs.error);
    }
    r := Jobs.Summaries(jobs.value);
  }
}
