/** services/task_svc.go: Tasks are ConfigMaps with a `runner`; a Task's Secret
    is shown masked and updated by merging the submitted values into it. */
module Tasks {
  import opened Base
  import opened Foreign
  import opened Models
  import opened Kube
  import opened Catalog

  /** The mask `GetSecret` shows for every value; a submitted value equal to it means "keep". */
  const Sentinel := "************"
  /** The mask `UpdateSecret` answers with (one character longer than the sentinel). */
  const Written := "*************"

  /** The keys a Task listing leaves out. */
  const ListHidden: set<string> := {"synchronous", "schema"}

  // ---------------------------------------------------------------------
  // Listing
  // ---------------------------------------------------------------------

  /** `ListTasks` (services/task_svc.go:46-70). */
  method ListTasks(kube: Cluster, authList: seq<string>) returns (r: Result<seq<Record>>)
    ensures |authList| == 0 ==> r == Ok([])
    ensures |authList| > 0 && kube.ListConfigMaps().Err? ==> r == Err(kube.ListConfigMaps().error)
    ensures |authList| > 0 && kube.ListConfigMaps().Ok? ==> r == Ok(Listing(kube.ListConfigMaps().value, authList, RunnerKey, ListHidden))
  {
    if |authList| == 0 {
      return Ok([]);
    }
    var configMaps := kube.ListConfigMaps();
    if configMaps.Err? {
      return Err(configMaps.error);
    }
    var tasks := ListRecords(configMaps.value, authList, RunnerKey, ListHidden);
    r := Ok(tasks);
  }

  // ---------------------------------------------------------------------
  // Secrets: masking and merging
  // ---------------------------------------------------------------------

  /** Every value replaced by the mask: the keys are shown, the values never. */
  function Masked(m: Record, mask: string): (r: Record)
    ensures r.Keys == m.Keys
    ensures forall k :: k in r ==> r[k] == mask
  {
    map k | k in m :: mask
  }

  /** The masking loop over a Secret's keys (services/task_svc.go:344-347, 395-398). */
  method Mask(m: Record, mask: string) returns (r: Record)
    ensures r == Masked(m, mask)
  {
    r := map[];
    var pending := m.Keys;
    while pending != {}
      invariant pending <= m.Keys
      invariant r.Keys == m.Keys - pending
      invariant forall k :: k in r ==> r[k] == mask
      decreases pending
    {
      var k :| k in pending;
      r := r[k := mask];
      pending := pending - {k};
    }
  }

  /** What `GetSecret` answers for what the cluster holds: no Secret is no error and no map. */
  function Cleared(secret: Result<Record>): (r: Result<Option<Record>>)
    ensures secret.Err? ==> r == if IsNotFound(secret.error) then Ok(None) else Err(secret.error)
    ensures secret.Ok? ==> r.Ok? && r.value.Some? && r.value.value.Keys == secret.value.Keys
    ensures secret.Ok? ==> forall k :: k in r.value.value ==> r.value.value[k] == Sentinel
  {
    match secret
    case Err(e) => if IsNotFound(e) then Ok(None) else Err(e)
    case Ok(data) => Ok(Some(Masked(data, Sentinel)))
  }

  /** `GetSecret` (services/task_svc.go:335-350). */
  method GetSecret(kube: Cluster, name: string) returns (r: Result<Option<Record>>)
    ensures r == Cleared(kube.GetSecret(name))
  {
    var secret := kube.GetSecret(name);
    if secret.Err? {
      if !IsNotFound(secret.error) {
        return Err(secret.error);
      }
      return Ok(None);
    }
    var cleaned := Mask(secret.value, Sentinel);
    r := Ok(Some(cleaned));
  }

  /** What a map holds under a key. */
  function At(m: Record, k: string): Option<string> {
    if k in m then Some(m[k]) else None
  }

  /** Two maps that hold the same under every key are equal. */
  lemma SameEverywhere(a: Record, b: Record)
    requires forall k :: At(a, k) == At(b, k)
    ensures a == b
  {
    assert forall k :: k in a <==> k in b by {
      forall k ensures k in a <==> k in b {
        assert At(a, k) == At(b, k);
      }
    }
    assert forall k :: k in a ==> a[k] == b[k] by {
      forall k | k in a ensures a[k] == b[k] {
        assert At(a, k) == At(b, k);
      }
    }
  }

  /** What key `k` holds after value `v` is submitted for it (services/task_svc.go:377-386): a
      value different from "" or from the current one is written unless it is the sentinel,
      which keeps the current one; an empty value over an empty or absent one leaves no key. */
  function Outcome(current: Record, k: string, v: string): Option<string> {
    if v != "" || v != Get(current, k) then
      if v != Sentinel then Some(v) else At(current, k)
    else None
  }

  /** What key `k` holds after the whole submission. */
  function MergedAt(current: Record, submitted: Record, k: string): Option<string> {
    if k in submitted then Outcome(current, k, submitted[k]) else At(current, k)
  }

  /** The Secret `UpdateSecret` writes (services/task_svc.go:375-387). Map iteration order does
      not matter: every key is decided by its own two values. */
  function Merge(current: Record, submitted: Record): (r: Record)
    ensures forall k :: At(r, k) == MergedAt(current, submitted, k)
  {
    var r := map k | k in current.Keys + submitted.Keys && MergedAt(current, submitted, k).Some?
                 :: MergedAt(current, submitted, k).value;
    assert forall k :: At(r, k) == MergedAt(current, submitted, k) by {
      forall k ensures At(r, k) == MergedAt(current, submitted, k) {
        if k !in current.Keys + submitted.Keys {
          assert k !in submitted && At(current, k) == None;
        }
      }
    }
    r
  }

  /** The promises of the merge, key by key: an unsubmitted key or the sentinel keeps the
      current value, any other non-empty value is written, and "" empties a non-empty value
      but removes an empty one. */
  lemma MergeKeys(current: Record, submitted: Record, k: string)
    ensures k !in submitted ==> At(Merge(current, submitted), k) == At(current, k)
    ensures k in submitted && submitted[k] == Sentinel ==> At(Merge(current, submitted), k) == At(current, k)
    ensures k in submitted && submitted[k] != "" && submitted[k] != Sentinel ==>
      At(Merge(current, submitted), k) == Some(submitted[k])
    ensures k in submitted && submitted[k] == "" ==>
      At(Merge(current, submitted), k) == if Get(current, k) != "" then Some("") else None
  {
    assert At(Merge(current, submitted), k) == MergedAt(current, submitted, k);
  }

  /** The submitted entries whose keys are in `keys`. */
  function Restrict(m: Record, keys: set<string>): (r: Record)
    ensures forall k :: At(r, k) == if k in keys then At(m, k) else None
  {
    map k | k in m && k in keys :: m[k]
  }

  /** One iteration of the merge loop: merging one more submitted key acts on that key alone. */
  lemma MergeStep(current: Record, submitted: Record, done: set<string>, k: string, merged: Record, next: Record)
    requires k in submitted && k !in done
    requires merged == Merge(current, Restrict(submitted, done))
    requires forall j :: At(next, j) == if j == k then Outcome(merged, k, submitted[k]) else At(merged, j)
    ensures next == Merge(current, Restrict(submitted, done + {k}))
  {
    var goal := Merge(current, Restrict(submitted, done + {k}));
    assert At(merged, k) == At(current, k);
    assert Get(merged, k) == Get(current, k) by {
      assert At(merged, k) == At(current, k);
    }
    forall j ensures At(next, j) == At(goal, j) {
      assert At(goal, j) == MergedAt(current, Restrict(submitted, done + {k}), j);
      if j != k {
        assert At(merged, j) == MergedAt(current, Restrict(submitted, done), j);
      }
    }
    SameEverywhere(next, goal);
  }

  /** The merge loop of `UpdateSecret`, in whatever order the keys come. */
  method MergeSecret(current: Record, submitted: Record) returns (merged: Record)
    ensures merged == Merge(current, submitted)
  {
    merged := current;
    var pending := submitted.Keys;
    forall j ensures At(merged, j) == At(Merge(current, Restrict(submitted, {})), j) {
      assert At(Merge(current, Restrict(submitted, {})), j) == MergedAt(current, Restrict(submitted, {}), j);
    }
    SameEverywhere(merged, Merge(current, Restrict(submitted, {})));
    assert submitted.Keys - pending == {};
    while pending != {}
      invariant pending <= submitted.Keys
      invariant merged == Merge(current, Restrict(submitted, submitted.Keys - pending))
      decreases pending
    {
      var k :| k in pending;
      var v := submitted[k];
      var before := merged;
      var v2, ok := Get(merged, k), k in merged;
      if v != "" || v != v2 {
        if v != Sentinel {
          merged := merged[k := v];
        }
      } else if v == "" && ok {
        merged := merged - {k};
      }
      assert forall j :: At(merged, j) == if j == k then Outcome(before, k, v) else At(before, j);
      MergeStep(current, submitted, submitted.Keys - pending, k, before, merged);
      assert submitted.Keys - pending + {k} == submitted.Keys - (pending - {k});
      pending := pending - {k};
    }
    forall j ensures At(Merge(current, Restrict(submitted, submitted.Keys)), j) == At(Merge(current, submitted), j) {
      assert At(Merge(current, Restrict(submitted, submitted.Keys)), j) == MergedAt(current, Restrict(submitted, submitted.Keys), j);
      assert At(Merge(current, submitted), j) == MergedAt(current, submitted, j);
      assert At(Restrict(submitted, submitted.Keys), j) == At(submitted, j);
    }
    SameEverywhere(Merge(current, Restrict(submitted, submitted.Keys)), Merge(current, submitted));
  }

  /** Sending back what `GetSecret` showed (or any map of sentinels) leaves a Secret as it is. */
  lemma EchoSentinelKeeps(current: Record, shown: Record)
    ensures Merge(current, Masked(shown, Sentinel)) == current
  {
    var m := Merge(current, Masked(shown, Sentinel));
    forall k ensures At(m, k) == At(current, k) {
      MergeKeys(current, Masked(shown, Sentinel), k);
    }
    SameEverywhere(m, current);
  }

  /** Sending back what `UpdateSecret` answered overwrites every one of those values with the
      thirteen-character mask, because that mask is not the sentinel. */
  lemma EchoWrittenOverwrites(current: Record, answered: Record)
    ensures forall k :: k in answered ==> At(Merge(current, Masked(answered, Written)), k) == Some(Written)
  {
    forall k | k in answered ensures At(Merge(current, Masked(answered, Written)), k) == Some(Written) {
      MergeKeys(current, Masked(answered, Written), k);
    }
  }

  /** Submitting "" for a non-empty value empties it; submitting "" again then deletes it. */
  lemma EmptyTwiceDeletes(current: Record, k: string)
    requires k in current && current[k] != ""
    ensures At(Merge(current, map[k := ""]), k) == Some("")
    ensures At(Merge(Merge(current, map[k := ""]), map[k := ""]), k) == None
  {
    var once := Merge(current, map[k := ""]);
    MergeKeys(current, map[k := ""], k);
    MergeKeys(once, map[k := ""], k);
  }

  /** The error `UpdateSecret` meets on `secrets`, or None when it writes. */
  function SecretWriteErr(secrets: map<string, Record>, faults: set<Api>, name: string, submitted: Record)
    : (err: Option<Error>)
    ensures err.None? ==> SecretGet !in faults
    ensures err.None? && name !in secrets ==> Merge(map[], submitted) != map[]
  {
    if SecretGet in faults then Some(Unavailable(SecretGet))
    else
      var present := name in secrets;
      var merged := Merge(if present then secrets[name] else map[], submitted);
      if merged != map[] then
        var call := if present then SecretUpdate else SecretCreate;
        if call in faults then Some(Unavailable(call)) else None
      else if SecretDelete in faults then Some(Unavailable(SecretDelete))
      else if present then None
      else Some(NotFound(name))
  }

  /** The Secrets after `UpdateSecret` writes: the merged Secret stored under `name`, or that
      Secret removed when the merge leaves it empty; every other Secret as it was. */
  function SecretsAfter(secrets: map<string, Record>, name: string, submitted: Record): (r: map<string, Record>)
    ensures forall n :: n != name ==> (n in r <==> n in secrets) && (n in r ==> r[n] == secrets[n])
    ensures name in r <==> Merge(if name in secrets then secrets[name] else map[], submitted) != map[]
    ensures name in r ==> r[name] == Merge(if name in secrets then secrets[name] else map[], submitted)
  {
    var merged := Merge(if name in secrets then secrets[name] else map[], submitted);
    if merged != map[] then secrets[name := merged] else secrets - {name}
  }

  /** `UpdateSecret` (services/task_svc.go:352-408). On an error the model drops the empty map
      Go returns beside it. */
  method UpdateSecret(kube: Cluster, name: string, submitted: Record) returns (r: Result<Record>)
    modifies kube
    ensures kube.configMaps == old(kube.configMaps)
    ensures SecretGet in kube.faults ==> r == Err(Unavailable(SecretGet)) && kube.secrets == old(kube.secrets)
    ensures SecretGet !in kube.faults ==>
      var present := name in old(kube.secrets);
      var merged := Merge(if present then old(kube.secrets)[name] else map[], submitted);
      if merged != map[] then
        var call := if present then SecretUpdate else SecretCreate;
        if call in kube.faults then r == Err(Unavailable(call)) && kube.secrets == old(kube.secrets)
        else r == Ok(Masked(merged, Written)) && kube.secrets == old(kube.secrets)[name := merged]
      else if SecretDelete in kube.faults then r == Err(Unavailable(SecretDelete)) && kube.secrets == old(kube.secrets)
      else if present then r == Ok(map[]) && kube.secrets == old(kube.secrets) - {name}
      else r == Err(NotFound(name)) && kube.secrets == old(kube.secrets)
    ensures r.Err? <==> SecretWriteErr(old(kube.secrets), kube.faults, name, submitted).Some?
    ensures r.Err? ==> r.error == SecretWriteErr(old(kube.secrets), kube.faults, name, submitted).value
    ensures kube.secrets == if r.Ok? then SecretsAfter(old(kube.secrets), name, submitted) else old(kube.secrets)
  {
    var secretObj := kube.GetSecret(name);
    if secretObj.Err? && !IsNotFound(secretObj.error) {
      return Err(secretObj.error);
    }
    var current: Record := map[];
    var operation := "create";
    if secretObj.Ok? {
      current := secretObj.value;
      operation := "update";
    }
    var merged := MergeSecret(current, submitted);
    if merged != map[] {
      var written := kube.CreateOrUpdateSecret(name, merged, operation);
      if written.Err? {
        return Err(written.error);
      }
      var cleaned := Mask(written.value.GetOr(map[]), Written);
      r := Ok(cleaned);
    } else {
      var err := kube.DeleteSecret(name);
      if err.Some? {
        return Err(err.value);
      }
      r := Ok(map[]);
    }
  }

  // ---------------------------------------------------------------------
  // Task records
  // ---------------------------------------------------------------------

  /** `string(jsonData)`: the marshalled schema, or "" when the Task has none. */
  function SchemaText(schema: Option<Object>, marshal: Json -> string): string {
    if schema.Some? then marshal(JObject(schema.value)) else ""
  }

  /** The ConfigMap data a Task is stored as: the Task's own fields, the flag as text, the
      marshalled schema, and no secret. */
  function TaskRecord(task: Task, marshal: Json -> string): (r: Record)
    ensures r.Keys == {"name", "runner", "command", "synchronous", "schema"}
    ensures "secret" !in r
    ensures Get(r, "name") == task.name && Get(r, "runner") == task.runner && Get(r, "command") == task.command
    ensures ParseBool(r["synchronous"]) == Some(task.synchronous)
  {
    map["name" := task.name, "runner" := task.runner, "command" := task.command,
        "synchronous" := FormatBool(task.synchronous), "schema" := SchemaText(task.schema, marshal)]
  }

  /** The Task `GetTask` shows for stored data: every value as a string, except the flag as a
      boolean (false when it does not parse) and a non-empty schema decoded. */
  function TaskView(data: Record, unmarshal: string -> Option<Object>): (r: Result<Object>)
    ensures Get(data, "schema") == "" ==> r.Ok?
    ensures Get(data, "schema") != "" ==> (r.Err? <==> unmarshal(data["schema"]).None?)
    ensures r.Err? ==> r.error == DecodeError
    ensures r.Ok? ==> r.value.Keys == data.Keys + {"synchronous"}
    ensures r.Ok? ==> r.value["synchronous"] == JBool(Get(data, "synchronous") in {"1", "t", "T", "TRUE", "true", "True"})
    ensures r.Ok? && Get(data, "schema") != "" ==> r.value["schema"] == JObject(unmarshal(data["schema"]).value)
    ensures r.Ok? ==> forall k :: k in data && k != "synchronous" && (k != "schema" || data[k] == "") ==>
      r.value[k] == JString(data[k])
  {
    var base := FromRecord(data)["synchronous" := JBool(ParseBool(Get(data, "synchronous")).GetOr(false))];
    if Get(data, "schema") != "" then
      match unmarshal(data["schema"])
      case None => Err(DecodeError)
      case Some(schema) => Ok(base["schema" := JObject(schema)])
    else Ok(base)
  }

  /** A stored Task reads back as it was submitted, when the schema codec round-trips
      and marshals to non-empty text. */
  lemma TaskReadsBack(task: Task, ext: Externals)
    requires task.schema.Some? ==> var text := ext.marshal(JObject(task.schema.value));
      text != "" && ext.unmarshalObject(text) == Some(task.schema.value)
    ensures TaskView(TaskRecord(task, ext.marshal), ext.unmarshalObject) == Ok(map[
      "name" := JString(task.name), "runner" := JString(task.runner), "command" := JString(task.command),
      "synchronous" := JBool(task.synchronous),
      "schema" := if task.schema.Some? then JObject(task.schema.value) else JString("")])
  {
    var data := TaskRecord(task, ext.marshal);
    var view := TaskView(data, ext.unmarshalObject);
    var expected := map[
      "name" := JString(task.name), "runner" := JString(task.runner), "command" := JString(task.command),
      "synchronous" := JBool(task.synchronous),
      "schema" := if task.schema.Some? then JObject(task.schema.value) else JString("")];
    assert data["schema"] == SchemaText(task.schema, ext.marshal);
    assert view.Ok?;
    assert view.value.Keys == expected.Keys;
    assert Get(data, "synchronous") in {"1", "t", "T", "TRUE", "true", "True"} <==> task.synchronous;
    forall k | k in expected ensures view.value[k] == expected[k] {
      if k == "schema" && task.schema.Some? {
        assert Get(data, "schema") != "";
      }
    }
    assert view.value == expected;
  }

  function TaskNotFound(name: string): Error {
    Failed("task " + name + " not found")
  }

  function NoRunner(runner: string): Error {
    Failed("error retrieving runner " + runner + ", please specify an existing runner")
  }

  /** A Runner lookup that does not yield a Runner record. */
  predicate RunnerUnusable(runner: Result<Record>) {
    runner.Err? || Get(runner.value, ImageKey) == ""
  }

  /** `GetTask` (services/task_svc.go:72-105): the Task and its masked Secret. */
  method GetTask(kube: Cluster, unmarshal: string -> Option<Object>, name: string)
    returns (r: Result<(Object, Option<Record>)>)
    ensures kube.GetConfigMap(name).Err? ==> r == Err(kube.GetConfigMap(name).error)
    ensures kube.GetConfigMap(name).Ok? ==>
      var data := kube.GetConfigMap(name).value;
      if Get(data, RunnerKey) == "" then r == Err(TaskNotFound(name))
      else if TaskView(data, unmarshal).Err? then r == Err(TaskView(data, unmarshal).error)
      else if Cleared(kube.GetSecret(name)).Err? then r == Err(Cleared(kube.GetSecret(name)).error)
      else r == Ok((TaskView(data, unmarshal).value, Cleared(kube.GetSecret(name)).value))
  {
    var configMap := kube.GetConfigMap(name);
    if configMap.Err? {
      return Err(configMap.error);
    }
    if Get(configMap.value, RunnerKey) == "" {
      return Err(TaskNotFound(name));
    }
    var view := TaskView(configMap.value, unmarshal);
    if view.Err? {
      return Err(view.error);
    }
    var secret := GetSecret(kube, name);
    if secret.Err? {
      return Err(secret.error);
    }
    r := Ok((view.value, secret.value));
  }

  /** The checks `CreateTask` and `UpdateTask` make before writing: a usable Runner, then a valid schema. */
  function PreWrite(runner: Result<Record>, task: Task, ext: Externals): (err: Option<Error>)
    ensures RunnerUnusable(runner) ==> err == Some(NoRunner(task.runner))
    ensures !RunnerUnusable(runner) && task.schema.None? ==> err.None?
    ensures !RunnerUnusable(runner) && task.schema.Some? ==>
      err == ext.validateSchema(ext.marshal(JObject(task.schema.value)))
  {
    if RunnerUnusable(runner) then Some(NoRunner(task.runner))
    else if task.schema.Some? then ext.validateSchema(SchemaText(task.schema, ext.marshal))
    else None
  }

  /** `CreateTask` (services/task_svc.go:107-155). */
  method CreateTask(kube: Cluster, ext: Externals, task: Task) returns (r: Result<(Object, Option<Record>)>)
    modifies kube
    ensures var err := PreWrite(old(kube.GetConfigMap(task.runner)), task, ext);
      err.Some? ==> r == Err(err.value) && kube.configMaps == old(kube.configMaps) && kube.secrets == old(kube.secrets)
    ensures PreWrite(old(kube.GetConfigMap(task.runner)), task, ext).None? && ConfigMapCreate in kube.faults ==>
      r == Err(Unavailable(ConfigMapCreate))
    ensures var err := PreWrite(old(kube.GetConfigMap(task.runner)), task, ext);
      err.None? && ConfigMapCreate !in kube.faults && Named(old(kube.configMaps), task.name) ==>
      r == Err(Conflict(task.name))
    ensures var wrote := PreWrite(old(kube.GetConfigMap(task.runner)), task, ext).None? &&
                         ConfigMapCreate !in kube.faults && !Named(old(kube.configMaps), task.name);
      && kube.configMaps == (if wrote then old(kube.configMaps) + [Item(task.name, TaskRecord(task, ext.marshal))]
                             else old(kube.configMaps))
      && kube.secrets == (if wrote && task.secret.Some? &&
                             SecretWriteErr(old(kube.secrets), kube.faults, task.name, task.secret.value).None?
                          then SecretsAfter(old(kube.secrets), task.name, task.secret.value)
                          else old(kube.secrets))
      && (wrote && task.secret.Some? && SecretWriteErr(old(kube.secrets), kube.faults, task.name, task.secret.value).Some? ==>
            r == Err(SecretWriteErr(old(kube.secrets), kube.faults, task.name, task.secret.value).value))
    ensures r.Ok? ==> !Named(old(kube.configMaps), task.name)
    ensures r.Ok? ==> Lookup(kube.configMaps, task.name) == Some(TaskRecord(task, ext.marshal))
    ensures r.Ok? ==> Ok(r.value.0) == TaskView(TaskRecord(task, ext.marshal), ext.unmarshalObject)
  {
    var runner := kube.GetConfigMap(task.runner);
    var err := PreWrite(runner, task, ext);
    if err.Some? {
      return Err(err.value);
    }
    var data := TaskRecord(task, ext.marshal);
    var written := kube.CreateOrUpdateConfigMap(data, "create");
    if written.Err? {
      return Err(written.error);
    }
    if task.secret.Some? {
      var secret := UpdateSecret(kube, task.name, task.secret.value);
      if secret.Err? {
        return Err(secret.error);
      }
    }
    r := GetTask(kube, ext.unmarshalObject, task.name);
  }

  /** `UpdateTask` (services/task_svc.go:157-219): without a secret in the request, the Task's
      Secret is deleted (an absent one is fine). */
  method UpdateTask(kube: Cluster, ext: Externals, task: Task) returns (r: Result<(Object, Option<Record>)>)
    modifies kube
    ensures old(kube.GetConfigMap(task.name)).Err? ==>
      r == Err(old(kube.GetConfigMap(task.name)).error) && kube.configMaps == old(kube.configMaps) && kube.secrets == old(kube.secrets)
    ensures var err := PreWrite(old(kube.GetConfigMap(task.runner)), task, ext);
      old(kube.GetConfigMap(task.name)).Ok? && err.Some? ==>
      r == Err(err.value) && kube.configMaps == old(kube.configMaps) && kube.secrets == old(kube.secrets)
    ensures old(kube.GetConfigMap(task.name)).Ok? && PreWrite(old(kube.GetConfigMap(task.runner)), task, ext).None? &&
            ConfigMapUpdate in kube.faults ==>
      r == Err(Unavailable(ConfigMapUpdate)) && kube.configMaps == old(kube.configMaps) && kube.secrets == old(kube.secrets)
    ensures old(kube.GetConfigMap(task.name)).Ok? && PreWrite(old(kube.GetConfigMap(task.runner)), task, ext).None? &&
            ConfigMapUpdate !in kube.faults ==>
      && kube.configMaps == Replace(old(kube.configMaps), Item(task.name, TaskRecord(task, ext.marshal)))
      && kube.secrets == SyncedSecrets(old(kube.secrets), kube.faults, task.name, task.secret)
      && (SyncErr(old(kube.secrets), kube.faults, task.name, task.secret).Some? ==>
            r == Err(SyncErr(old(kube.secrets), kube.faults, task.name, task.secret).value))
    ensures r.Ok? ==> Lookup(kube.configMaps, task.name) == Some(TaskRecord(task, ext.marshal))
    ensures r.Ok? ==> Ok(r.value.0) == TaskView(TaskRecord(task, ext.marshal), ext.unmarshalObject)
    ensures r.Ok? && task.secret.None? ==> r.value.1 == None
  {
    var existing := kube.GetConfigMap(task.name);
    if existing.Err? {
      return Err(existing.error);
    }
    var runner := kube.GetConfigMap(task.runner);
    var err := PreWrite(runner, task, ext);
    if err.Some? {
      return Err(err.value);
    }
    var data := TaskRecord(task, ext.marshal);
    var written := kube.CreateOrUpdateConfigMap(data, "update");
    if written.Err? {
      return Err(written.error);
    }
    var synced := SyncSecret(kube, task.name, task.secret);
    if synced.Some? {
      return Err(synced.value);
    }
    r := GetTask(kube, ext.unmarshalObject, task.name);
  }

  /** The error of the Secret step of `UpdateTask`: `UpdateSecret`'s for a submitted secret; for
      none, the Delete's, except that an absent Secret is fine. */
  function SyncErr(secrets: map<string, Record>, faults: set<Api>, name: string, secret: Option<Record>)
    : (err: Option<Error>)
    ensures secret.Some? ==> err == SecretWriteErr(secrets, faults, name, secret.value)
    ensures secret.None? ==> (err.Some? <==> SecretDelete in faults)
  {
    if secret.Some? then SecretWriteErr(secrets, faults, name, secret.value)
    else if SecretDelete in faults then Some(Unavailable(SecretDelete))
    else None
  }

  /** The Secrets after the Secret step of `UpdateTask`: unchanged when it fails; otherwise the
      merge written, or, without a submitted secret, the Task's Secret gone. */
  function SyncedSecrets(secrets: map<string, Record>, faults: set<Api>, name: string, secret: Option<Record>)
    : (r: map<string, Record>)
    ensures SyncErr(secrets, faults, name, secret).Some? ==> r == secrets
    ensures forall n :: n != name ==> (n in r <==> n in secrets) && (n in r ==> r[n] == secrets[n])
    ensures SyncErr(secrets, faults, name, secret).None? && secret.None? ==> name !in r
  {
    if SyncErr(secrets, faults, name, secret).Some? then secrets
    else if secret.Some? then SecretsAfter(secrets, name, secret.value)
    else secrets - {name}
  }

  /** The Secret step of `UpdateTask` (services/task_svc.go:198-211): merge a submitted
      secret, or delete the Task's Secret when none is submitted. */
  method SyncSecret(kube: Cluster, name: string, secret: Option<Record>) returns (err: Option<Error>)
    modifies kube
    ensures kube.configMaps == old(kube.configMaps)
    ensures err == SyncErr(old(kube.secrets), kube.faults, name, secret)
    ensures kube.secrets == SyncedSecrets(old(kube.secrets), kube.faults, name, secret)
  {
    if secret.Some? {
      var written := UpdateSecret(kube, name, secret.value);
      if written.Err? {
        return Some(written.error);
      }
      err := None;
    } else {
      var deleted := kube.DeleteSecret(name);
      if deleted.Some? && !IsNotFound(deleted.value) {
        return deleted;
      }
      err := None;
    }
  }

  /** `DeleteTask` (services/task_svc.go:221-233): the ConfigMap, then the Secret if there is one. */
  method DeleteTask(kube: Cluster, name: string) returns (err: Option<Error>)
    modifies kube
    ensures ConfigMapDelete in kube.faults ==>
      err == Some(Unavailable(ConfigMapDelete)) && kube.configMaps == old(kube.configMaps) && kube.secrets == old(kube.secrets)
    ensures ConfigMapDelete !in kube.faults && !Named(old(kube.configMaps), name) ==>
      err == Some(NotFound(name)) && kube.configMaps == old(kube.configMaps) && kube.secrets == old(kube.secrets)
    ensures ConfigMapDelete !in kube.faults && Named(old(kube.configMaps), name) ==>
      && kube.configMaps == RemoveItem(old(kube.configMaps), name).value
      && (if SecretDelete in kube.faults then err == Some(Unavailable(SecretDelete)) && kube.secrets == old(kube.secrets)
          else err == None && kube.secrets == old(kube.secrets) - {name})
  {
    err := kube.DeleteConfigMap(name);
    if err.Some? {
      return;
    }
    var deleted := kube.DeleteSecret(name);
    if deleted.Some? && !IsNotFound(deleted.value) {
      return deleted;
    }
    err := None;
  }
}
