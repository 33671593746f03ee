/** services/deployments_svc.go: listing Deployments with the extra variables
    recovered from their first container's environment, and the pre-flight gate
    before one is created. */
module Deployments {
  import opened Base
  import opened Foreign
  import opened Models
  import opened PodSpecs
  import opened Kube
  import Jobs

  /** The Deployments of the service itself, which a listing never shows. */
  const Reserved: set<string> := {"kriten", "kriten-frontend"}

  /** `d.Spec.Template.Spec.Containers[0]` on a Deployment without containers. */
  const NoContainer := Panic("index out of range [0] with length 0")

  /** One listed Deployment (services/deployments_svc.go:51-73): none for a reserved name;
      otherwise name, template labels and replicas, and the extra variables decoded from the
      first environment variable of the first container when there is one. */
  function DeploymentOf(item: DeploymentItem, unmarshal: string -> Option<Object>): (r: Result<Option<Deployment>>)
    ensures r == Ok(None) <==> item.name in Reserved
    ensures item.name !in Reserved && item.containerEnvs == [] ==> r == Err(NoContainer)
    ensures item.name !in Reserved && item.containerEnvs != [] && item.containerEnvs[0] != [] ==>
      (r.Err? <==> unmarshal(item.containerEnvs[0][0].value).None?)
    ensures item.name !in Reserved && item.containerEnvs != [] && item.containerEnvs[0] == [] ==> r.Ok?
    ensures r.Err? ==> r.error == NoContainer || r.error == DecodeError
    ensures r.Ok? && r.value.Some? ==>
      var d := r.value.value;
      && d.name == item.name && d.owner == Get(item.templateLabels, "owner")
      && d.task == Get(item.templateLabels, "task-name") && d.replicas == item.replicas
      && (d.extraVars.Some? <==> item.containerEnvs[0] != [])
      && (d.extraVars.Some? ==> unmarshal(item.containerEnvs[0][0].value) == d.extraVars)
  {
    if item.name in Reserved then Ok(None)
    else if item.containerEnvs == [] then Err(NoContainer)
    else
      var env := item.containerEnvs[0];
      var deploy := Deployment(item.name, Get(item.templateLabels, "owner"), Get(item.templateLabels, "task-name"),
                               item.replicas, None);
      if env == [] then Ok(Some(deploy))
      else match unmarshal(env[0].value)
        case None => Err(DecodeError)
        case Some(data) => Ok(Some(deploy.(extraVars := Some(data))))
  }

  /** `DeploymentOf` as the zero-or-one Deployments an item contributes to a listing. */
  function Convert(unmarshal: string -> Option<Object>): DeploymentItem -> Result<seq<Deployment>> {
    item =>
      match DeploymentOf(item, unmarshal)
      case Err(e) => Err(e)
      case Ok(d) => Ok(if d.Some? then [d.value] else [])
  }

  /** A successful listing shows no reserved Deployment, and each Deployment it shows comes from
      a listed item with the same name. */
  lemma {:induction false} ListingNamesFromItems(items: seq<DeploymentItem>, unmarshal: string -> Option<Object>)
    ensures var r := Collect(items, Convert(unmarshal));
      r.Ok? ==> forall i :: 0 <= i < |r.value| ==>
        r.value[i].name !in Reserved && exists j :: 0 <= j < |items| && items[j].name == r.value[i].name
  {
    if items != [] {
      var n := |items| - 1;
      var init := items[..n];
      ListingNamesFromItems(init, unmarshal);
      var r := Collect(items, Convert(unmarshal));
      if r.Ok? {
        var acc := Collect(init, Convert(unmarshal)).value;
        var last := Convert(unmarshal)(items[n]).value;
        assert r.value == acc + last;
        forall i | 0 <= i < |r.value|
          ensures r.value[i].name !in Reserved && exists j :: 0 <= j < |items| && items[j].name == r.value[i].name
        {
          if i < |acc| {
            var j :| 0 <= j < |init| && init[j].name == acc[i].name;
            assert items[j] == init[j];
          } else {
            assert r.value[i] == last[i - |acc|];
            assert items[n].name == r.value[i].name;
          }
        }
      }
    }
  }

  /** The body of the listing loop (services/deployments_svc.go:51-73): skip a reserved name,
      otherwise read the first container's first variable. */
  method ConvertItem(d: DeploymentItem, unmarshal: string -> Option<Object>) returns (r: Result<seq<Deployment>>)
    ensures r == Convert(unmarshal)(d)
  {
    if d.name == "kriten" || d.name == "kriten-frontend" {
      return Ok([]);
    }
    if d.containerEnvs == [] {
      return Err(NoContainer);
    }
    var containerEnv := d.containerEnvs[0];
    var data: Option<Object> := None;
    if |containerEnv| > 0 {
      data := unmarshal(containerEnv[0].value);
      if data.None? {
        return Err(DecodeError);
      }
    }
    r := Ok([Deployment(d.name, Get(d.templateLabels, "owner"), Get(d.templateLabels, "task-name"), d.replicas, data)]);
  }

  /** `ListDeployments` (services/deployments_svc.go:32-77): selectors as for jobs; the listing
      stops at the first item whose extra variables do not decode. */
  method ListDeployments(kube: Cluster, ext: Externals, authList: seq<string>) returns (r: Result<seq<Deployment>>)
    ensures |authList| == 0 ==> r == Ok([])
    ensures |authList| > 0 && kube.workloads.listDeployments(Jobs.SelectorsFor(authList)).Err? ==>
      r == Err(kube.workloads.listDeployments(Jobs.SelectorsFor(authList)).error)
    ensures |authList| > 0 && kube.workloads.listDeployments(Jobs.SelectorsFor(authList)).Ok? ==>
      r == Collect(kube.workloads.listDeployments(Jobs.SelectorsFor(authList)).value, Convert(ext.unmarshalObject))
  {
    if |authList| == 0 {
      return Ok([]);
    }
    var selectors := Jobs.TaskSelectors(authList);
    var listed := kube.workloads.listDeployments(selectors);
    if listed.Err? {
      return Err(listed.error);
    }
    var items := listed.value;
    var deployments: seq<Deployment> := [];
    for i := 0 to |items|
      invariant Collect(items[..i], Convert(ext.unmarshalObject)) == Ok(deployments)
    {
      assert items[..i + 1][..i] == items[..i];
      var step := ConvertItem(items[i], ext.unmarshalObject);
      if step.Err? {
        CollectPrefixErr(items, i + 1, Convert(ext.unmarshalObject));
        return Err(step.error);
      }
      deployments := deployments + step.value;
    }
    assert items[..|items|] == items;
    r := Ok(deployments);
  }

  /** `GetDeployment` (services/deployments_svc.go:79-83): a stub answering the zero Deployment. */
  function GetDeployment(name: string): (r: (Deployment, Option<Error>))
    ensures r.0 == EmptyDeployment && r.1.None?
  {
    (EmptyDeployment, None)
  }

  /** `UpdateDeployment` (services/deployments_svc.go:96-98): a stub answering its input. */
  function UpdateDeployment(deploy: Deployment): (r: (Deployment, Option<Error>))
    ensures r.0 == deploy && r.1.None?
  {
    (deploy, None)
  }

  /** `CreateDeployment` (services/deployments_svc.go:85-94): nothing is created when the
      pre-flight checks fail. */
  method CreateDeployment(kube: Cluster, ext: Externals, deploy: Deployment) returns (r: Deployment, err: Option<Error>)
    ensures var checked := ext.preFlight(deploy.task, deploy.extraVars.GetOr(map[]));
      && (checked.Err? ==> r == EmptyDeployment && err == Some(checked.error))
      && (checked.Ok? ==> r == deploy && err == kube.workloads.createDeployment(deploy, checked.value.0, checked.value.1))
  {
    var checked := ext.preFlight(deploy.task, deploy.extraVars.GetOr(map[]));
    if checked.Err? {
      return EmptyDeployment, Some(checked.error);
    }
    var (runner, command) := checked.value;
    err := kube.workloads.createDeployment(deploy, runner, command);
    r := deploy;
  }

  /** `DeleteDeployment` (services/deployments_svc.go:100-107). */
  method DeleteDeployment(kube: Cluster, id: string) returns (err: Option<Error>)
    ensures err == kube.workloads.deleteDeployment(id)
  {
    err := kube.workloads.deleteDeployment(id);
  }
}
