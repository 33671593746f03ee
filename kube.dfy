/** The orchestrator as the services see it through helpers/k8s.go: the
    ConfigMaps and Secrets of one namespace, held as state, and the workload
    calls (jobs, pods, logs, cronjobs, deployments), supplied as functions. */
module Kube {
  import opened Base
  import opened Foreign
  import opened Models
  import opened PodSpecs

  // ---------------------------------------------------------------------
  // The named-object store
  // ---------------------------------------------------------------------

  /** A ConfigMap: its object name and its data. */
  datatype Item = Item(name: string, data: Record)

  predicate Named(items: seq<Item>, name: string) {
    exists i :: 0 <= i < |items| && items[i].name == name
  }

  /** A Get by name: the first object with that name. */
  function Lookup(items: seq<Item>, name: string): (r: Option<Record>)
    ensures r.None? <==> !Named(items, name)
    ensures r.Some? ==> exists i :: 0 <= i < |items| && items[i] == Item(name, r.value)
  {
    if items == [] then None
    else if items[0].name == name then Some(items[0].data)
    else
      var r := Lookup(items[1..], name);
      assert r.Some? ==> exists i :: 0 <= i < |items| && items[i] == Item(name, r.value) by {
        if r.Some? {
          var i :| 0 <= i < |items[1..]| && items[1..][i] == Item(name, r.value);
          assert items[i + 1] == items[1..][i];
        }
      }
      assert Named(items[1..], name) <==> Named(items, name) by {
        if Named(items, name) {
          var i :| 0 <= i < |items| && items[i].name == name;
          assert items[1..][i - 1] == items[i];
        }
      }
      r
  }

  /** The store with every object named like `item` replaced by it. */
  function Replace(items: seq<Item>, item: Item): seq<Item> {
    if items == [] then []
    else [if items[0].name == item.name then item else items[0]] + Replace(items[1..], item)
  }

  /** The store without the objects named `name`. */
  function Without(items: seq<Item>, name: string): seq<Item> {
    if items == [] then []
    else if items[0].name == name then Without(items[1..], name)
    else [items[0]] + Without(items[1..], name)
  }

  lemma {:induction false} ReplaceLookup(items: seq<Item>, item: Item, n: string)
    requires Named(items, item.name)
    ensures Lookup(Replace(items, item), n) == if n == item.name then Some(item.data) else Lookup(items, n)
  {
    if items[0].name != item.name {
      assert Named(items[1..], item.name) by {
        var i :| 0 <= i < |items| && items[i].name == item.name;
        assert items[1..][i - 1] == items[i];
      }
      ReplaceLookup(items[1..], item, n);
    } else if n != item.name && |items| > 1 {
      ReplaceLookupOthers(items[1..], item, n);
    }
  }

  lemma {:induction false} ReplaceLookupOthers(items: seq<Item>, item: Item, n: string)
    requires n != item.name
    ensures Lookup(Replace(items, item), n) == Lookup(items, n)
  {
    if items != [] {
      ReplaceLookupOthers(items[1..], item, n);
    }
  }

  lemma {:induction false} WithoutLookup(items: seq<Item>, name: string, n: string)
    ensures Lookup(Without(items, name), n) == if n == name then None else Lookup(items, n)
  {
    if items != [] {
      WithoutLookup(items[1..], name, n);
    }
  }

  lemma AppendLookup(items: seq<Item>, item: Item, n: string)
    requires !Named(items, item.name)
    ensures Lookup(items + [item], n) == if n == item.name then Some(item.data) else Lookup(items, n)
  {
    if items != [] {
      assert (items + [item])[1..] == items[1..] + [item];
      assert !Named(items[1..], item.name) by {
        forall i | 0 <= i < |items[1..]| ensures items[1..][i].name != item.name {
          assert items[1..][i] == items[i + 1];
        }
      }
      AppendLookup(items[1..], item, n);
    }
  }

  /** The create verbs and update verbs of `CreateOrUpdate*`. */
  datatype Verb = Create | Update

  /** The `operation` strings `CreateOrUpdateConfigMap`, `CreateOrUpdateSecret` and
      `CreateOrUpdateCronJob` act on; any other string makes no call. */
  function Dispatch(operation: string): (v: Option<Verb>)
    ensures v == Some(Create) <==> operation == "create"
    ensures v == Some(Update) <==> operation == "update"
  {
    if operation == "create" then Some(Create)
    else if operation == "update" then Some(Update)
    else None
  }

  /** A Create or Update of `item`: Create fails on an existing name, Update on a missing one.
      After either, a Get of that name sees the new data and every other name is untouched. */
  function PutItem(items: seq<Item>, verb: Verb, item: Item): (r: Result<seq<Item>>)
    ensures verb == Create ==> (r.Err? <==> Named(items, item.name))
    ensures verb == Update ==> (r.Err? <==> !Named(items, item.name))
    ensures r.Err? ==> r.error == (if verb == Create then Conflict(item.name) else NotFound(item.name))
    ensures r.Ok? ==> forall n :: Lookup(r.value, n) == if n == item.name then Some(item.data) else Lookup(items, n)
  {
    match verb
    case Create =>
      if Named(items, item.name) then Err(Conflict(item.name))
      else
        assert forall n :: Lookup(items + [item], n) == if n == item.name then Some(item.data) else Lookup(items, n) by {
          forall n { AppendLookup(items, item, n); }
        }
        Ok(items + [item])
    case Update =>
      if !Named(items, item.name) then Err(NotFound(item.name))
      else
        assert forall n :: Lookup(Replace(items, item), n) == if n == item.name then Some(item.data) else Lookup(items, n) by {
          forall n { ReplaceLookup(items, item, n); }
        }
        Ok(Replace(items, item))
  }

  /** A Delete by name: NotFound when absent; afterwards that name is gone and the rest untouched. */
  function RemoveItem(items: seq<Item>, name: string): (r: Result<seq<Item>>)
    ensures r.Err? <==> !Named(items, name)
    ensures r.Err? ==> r.error == NotFound(name)
    ensures r.Ok? ==> forall n :: Lookup(r.value, n) == if n == name then None else Lookup(items, n)
  {
    if !Named(items, name) then Err(NotFound(name))
    else
      assert forall n :: Lookup(Without(items, name), n) == if n == name then None else Lookup(items, n) by {
        forall n { WithoutLookup(items, name, n); }
      }
      Ok(Without(items, name))
  }

  /** The API call a verb makes on ConfigMaps and on Secrets. */
  function ConfigMapCall(verb: Verb): Api {
    if verb == Create then ConfigMapCreate else ConfigMapUpdate
  }

  function SecretCall(verb: Verb): Api {
    if verb == Create then SecretCreate else SecretUpdate
  }

  /** A Secret Create or Update on the name-keyed Secret store. */
  function PutSecret(secrets: map<string, Record>, verb: Verb, name: string, data: Record): (r: Result<map<string, Record>>)
    ensures r.Err? <==> (if verb == Create then name in secrets else name !in secrets)
    ensures r.Err? ==> r.error == (if verb == Create then Conflict(name) else NotFound(name))
    ensures r.Ok? ==> r.value == secrets[name := data]
  {
    match verb
    case Create => if name in secrets then Err(Conflict(name)) else Ok(secrets[name := data])
    case Update => if name !in secrets then Err(NotFound(name)) else Ok(secrets[name := data])
  }

  // ---------------------------------------------------------------------
  // Workloads: the calls whose results come from the running cluster
  // ---------------------------------------------------------------------

  /** `batchv1.JobStatus`, the fields the services read. Both times are nil pointers in Go until
      the job has started or completed. */
  datatype JobStatus = JobStatus(startTime: Option<string>, completionTime: Option<string>, succeeded: int, failed: int)

  datatype JobItem = JobItem(name: string, labels: Record, status: JobStatus)

  datatype CronJobItem = CronJobItem(name: string, labels: Record)

  /** An `appsv1.Deployment`: template labels, replica count and each container's env. */
  datatype DeploymentItem = DeploymentItem(
    name: string,
    templateLabels: Record,
    replicas: int,
    containerEnvs: seq<seq<EnvVar>>)

  /** The arguments services/job_svc.go passes to `helpers.CreateJob`. */
  datatype JobRequest = JobRequest(
    task: string, image: string, owner: string, extraVars: string, command: string, gitURL: string)

  /** The arguments services/cronjobs_svc.go passes to `helpers.CreateCronJob`. */
  datatype CronJobRequest = CronJobRequest(
    task: string, image: string, owner: string, extraVars: string,
    command: string, gitURL: string, gitBranch: string)

  datatype Workloads = Workloads(
    /** One List call on Jobs, with or without a label selector. */
    listJobs: Option<string> -> Result<seq<JobItem>>,
    /** The status `GetJob` reports at the k-th poll of a job (k from 0). */
    pollJob: (string, nat) -> Result<JobStatus>,
    /** The names of the pods a label selector matches, in list order. */
    listPods: string -> Result<seq<string>>,
    /** `GetLogs` of one pod. */
    podLogs: string -> Result<string>,
    /** `helpers.CreateJob`: the generated job name. */
    createJob: JobRequest -> Result<string>,
    listCronJobs: Option<string> -> Result<seq<CronJobItem>>,
    getCronJob: string -> Result<CronJobItem>,
    /** `helpers.CreateCronJob`: the name, which is returned even with an error. */
    createCronJob: CronJobRequest -> (string, Option<Error>),
    /** The Create or Update call on a CronJob object. */
    applyCronJob: (Verb, BatchCronJob) -> Result<BatchCronJob>,
    /** `helpers.ListDeployments` with its selectors. */
    listDeployments: seq<string> -> Result<seq<DeploymentItem>>,
    /** `helpers.CreateOrUpdateDeployment(…, "create")`. */
    createDeployment: (Deployment, Record, string) -> Option<Error>,
    /** `helpers.DeleteDeployment`. */
    deleteDeployment: string -> Option<Error>
  )

  // ---------------------------------------------------------------------
  // The cluster
  // ---------------------------------------------------------------------

  /** `config.KubeConfig` together with the namespace's ConfigMaps and Secrets.
      A call whose kind is in `faults` fails with `Unavailable` and changes nothing. */
  class Cluster {
    const namespace: string
    const jobsTTL: int
    const faults: set<Api>
    const workloads: Workloads
    var configMaps: seq<Item>
    var secrets: map<string, Record>

    constructor (namespace: string, jobsTTL: int, faults: set<Api>, workloads: Workloads,
                 configMaps: seq<Item>, secrets: map<string, Record>)
      ensures this.namespace == namespace && this.jobsTTL == jobsTTL
      ensures this.faults == faults && this.workloads == workloads
      ensures this.configMaps == configMaps && this.secrets == secrets
    {
      this.namespace := namespace;
      this.jobsTTL := jobsTTL;
      this.faults := faults;
      this.workloads := workloads;
      this.configMaps := configMaps;
      this.secrets := secrets;
    }

    /** `ListConfigMaps` (helpers/k8s.go:38-48). */
    function ListConfigMaps(): (r: Result<seq<Item>>)
      reads this
      ensures r.Err? <==> ConfigMapList in faults
      ensures r.Ok? ==> r.value == configMaps
    {
      if ConfigMapList in faults then Err(Unavailable(ConfigMapList)) else Ok(configMaps)
    }

    /** `GetConfigMap` (helpers/k8s.go:50-61). */
    function GetConfigMap(name: string): (r: Result<Record>)
      reads this
      ensures ConfigMapGet in faults ==> r == Err(Unavailable(ConfigMapGet))
      ensures ConfigMapGet !in faults ==> (r.Ok? <==> Named(configMaps, name))
      ensures ConfigMapGet !in faults && r.Err? ==> r.error == NotFound(name)
      ensures r.Ok? ==> Lookup(configMaps, name) == Some(r.value)
    {
      if ConfigMapGet in faults then Err(Unavailable(ConfigMapGet))
      else match Lookup(configMaps, name)
        case None => Err(NotFound(name))
        case Some(data) => Ok(data)
    }

    /** `GetSecret` (helpers/k8s.go:112-122). */
    function GetSecret(name: string): (r: Result<Record>)
      reads this
      ensures SecretGet in faults ==> r == Err(Unavailable(SecretGet))
      ensures SecretGet !in faults ==> (r.Ok? <==> name in secrets)
      ensures SecretGet !in faults && r.Err? ==> r.error == NotFound(name)
      ensures r.Ok? ==> name in secrets && r.value == secrets[name]
    {
      if SecretGet in faults then Err(Unavailable(SecretGet))
      else if name in secrets then Ok(secrets[name])
      else Err(NotFound(name))
    }

    /** `CreateOrUpdateConfigMap` (helpers/k8s.go:63-84): the object is `ConfigMap(data, namespace)`,
        so it is named by `data["name"]`; an unknown operation makes no call and returns (nil, nil). */
    method CreateOrUpdateConfigMap(data: Record, operation: string) returns (r: Result<Option<Record>>)
      modifies this
      ensures secrets == old(secrets)
      ensures Dispatch(operation).None? ==> r == Ok(None) && configMaps == old(configMaps)
      ensures Dispatch(operation).Some? && ConfigMapCall(Dispatch(operation).value) in faults ==>
        r == Err(Unavailable(ConfigMapCall(Dispatch(operation).value))) && configMaps == old(configMaps)
      ensures Dispatch(operation).Some? && ConfigMapCall(Dispatch(operation).value) !in faults ==>
        match PutItem(old(configMaps), Dispatch(operation).value, Item(Get(data, "name"), data))
        case Ok(items) => configMaps == items && r == Ok(Some(data))
        case Err(e) => configMaps == old(configMaps) && r == Err(e)
    {
      var obj := ConfigMapOf(data, namespace);
      match Dispatch(operation)
      case None =>
        r := Ok(None);
      case Some(verb) =>
        if ConfigMapCall(verb) in faults {
          r := Err(Unavailable(ConfigMapCall(verb)));
        } else {
          match PutItem(configMaps, verb, Item(obj.name, obj.data))
          case Ok(items) =>
            configMaps := items;
            r := Ok(Some(obj.data));
          case Err(e) =>
            r := Err(e);
        }
    }

    /** `DeleteConfigMap` (helpers/k8s.go:86-97). */
    method DeleteConfigMap(name: string) returns (err: Option<Error>)
      modifies this
      ensures secrets == old(secrets)
      ensures ConfigMapDelete in faults ==> err == Some(Unavailable(ConfigMapDelete)) && configMaps == old(configMaps)
      ensures ConfigMapDelete !in faults ==>
        match RemoveItem(old(configMaps), name)
        case Ok(items) => configMaps == items && err == None
        case Err(e) => configMaps == old(configMaps) && err == Some(e)
    {
      if ConfigMapDelete in faults {
        err := Some(Unavailable(ConfigMapDelete));
      } else {
        match RemoveItem(configMaps, name)
        case Ok(items) =>
          configMaps := items;
          err := None;
        case Err(e) =>
          err := Some(e);
      }
    }

    /** `CreateOrUpdateSecret` (helpers/k8s.go:124-147): the object is `Secret(name, namespace, data)`;
        the stored data is the StringData written. */
    method CreateOrUpdateSecret(name: string, data: Record, operation: string) returns (r: Result<Option<Record>>)
      modifies this
      ensures configMaps == old(configMaps)
      ensures Dispatch(operation).None? ==> r == Ok(None) && secrets == old(secrets)
      ensures Dispatch(operation).Some? && SecretCall(Dispatch(operation).value) in faults ==>
        r == Err(Unavailable(SecretCall(Dispatch(operation).value))) && secrets == old(secrets)
      ensures Dispatch(operation).Some? && SecretCall(Dispatch(operation).value) !in faults ==>
        match PutSecret(old(secrets), Dispatch(operation).value, name, data)
        case Ok(m) => secrets == m && r == Ok(Some(data))
        case Err(e) => secrets == old(secrets) && r == Err(e)
    {
      var obj := SecretOf(name, namespace, data);
      match Dispatch(operation)
      case None =>
        r := Ok(None);
      case Some(verb) =>
        if SecretCall(verb) in faults {
          r := Err(Unavailable(SecretCall(verb)));
        } else {
          match PutSecret(secrets, verb, obj.name, obj.stringData)
          case Ok(m) =>
            secrets := m;
            r := Ok(Some(obj.stringData));
          case Err(e) =>
            r := Err(e);
        }
    }

    /** `DeleteSecret` (helpers/k8s.go:149-159). */
    method DeleteSecret(name: string) returns (err: Option<Error>)
      modifies this
      ensures configMaps == old(configMaps)
      ensures SecretDelete in faults ==> err == Some(Unavailable(SecretDelete)) && secrets == old(secrets)
      ensures SecretDelete !in faults && name in old(secrets) ==> err == None && secrets == old(secrets) - {name}
      ensures SecretDelete !in faults && name !in old(secrets) ==> err == Some(NotFound(name)) && secrets == old(secrets)
    {
      if SecretDelete in faults {
        err := Some(Unavailable(SecretDelete));
      } else if name in secrets {
        secrets := secrets - {name};
        err := None;
      } else {
        err := Some(NotFound(name));
      }
    }

    /** `ListJobs` (helpers/k8s.go:171-202). */
    method ListJobs(selectors: seq<string>) returns (r: Result<seq<JobItem>>)
      ensures r == Merged(selectors, workloads.listJobs)
    {
      r := ListMerged(selectors, workloads.listJobs);
    }

    /** `ListCronJobs` (helpers/k8s.go:391-421). */
    method ListCronJobs(selectors: seq<string>) returns (r: Result<seq<CronJobItem>>)
      ensures r == Merged(selectors, workloads.listCronJobs)
    {
      r := ListMerged(selectors, workloads.listCronJobs);
    }

    /** `CreateOrUpdateCronJob` (helpers/k8s.go:436-476). Unlike the ConfigMap and Secret
        helpers, an unknown operation returns the object it built, unsent. */
    method CreateOrUpdateCronJob(cronjob: CronJob, runner: Record, command: string, operation: string,
                                 marshal: Json -> string) returns (r: Result<BatchCronJob>)
      ensures Dispatch(operation).None? ==> r == Ok(CronJobFor(namespace, jobsTTL, cronjob, runner, command, marshal))
      ensures Dispatch(operation).Some? ==>
        r == workloads.applyCronJob(Dispatch(operation).value, CronJobFor(namespace, jobsTTL, cronjob, runner, command, marshal))
    {
      var extraVars := CronJobExtraVars(cronjob, marshal);
      var job := JobObject(cronjob.task, namespace, jobsTTL, Get(runner, "name"), Get(runner, "image"),
                           cronjob.owner, extraVars, command, Get(runner, "gitURL"), Get(runner, "branch"));
      var cron := CronJobObject(namespace, cronjob, job.spec);
      match Dispatch(operation)
      case None =>
        r := Ok(cron);
      case Some(verb) =>
        r := workloads.applyCronJob(verb, cron);
    }
  }
}
