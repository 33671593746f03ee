/** The pure builders of helpers/k8s.go: the object-name check, the Job and
    CronJob objects compiled from a Runner and a Task, the ConfigMap and Secret
    objects, and the merge of per-selector list results. */
module PodSpecs {
  import opened Base
  import opened Foreign
  import opened Models

  // ---------------------------------------------------------------------
  // ValidateK8sConfigMapName (helpers/k8s.go:21-36)
  // ---------------------------------------------------------------------

  predicate LowerAlnum(c: char) {
    'a' <= c <= 'z' || '0' <= c <= '9'
  }

  predicate LabelChars(p: string) {
    forall i :: 0 <= i < |p| ==> LowerAlnum(p[i]) || p[i] == '-'
  }

  /** One label of a DNS subdomain (section 2.1 of RFC 1123, no length limit). */
  predicate ValidLabel(p: string) {
    |p| > 0 && LowerAlnum(p[0]) && LowerAlnum(p[|p| - 1]) && LabelChars(p)
  }

  /** Non-empty dot-separated labels. */
  predicate IsSubdomain(name: string) {
    var labels := Split(name, '.');
    forall k :: 0 <= k < |labels| ==> ValidLabel(labels[k])
  }

  /** Where the matcher of `^[a-z0-9]([-a-z0-9]*[a-z0-9])?(\.[a-z0-9]([-a-z0-9]*[a-z0-9])?)*$` is. */
  datatype Scan = LabelStart | AfterAlnum | AfterDash

  /** The regular expression run as an automaton over the rest of the name. */
  function Matches(s: string, q: Scan): bool {
    if s == [] then q == AfterAlnum
    else if LowerAlnum(s[0]) then Matches(s[1..], AfterAlnum)
    else if s[0] == '-' && q != LabelStart then Matches(s[1..], AfterDash)
    else if s[0] == '.' && q == AfterAlnum then Matches(s[1..], LabelStart)
    else false
  }

  /** What the unfinished first label must look like for the automaton in state q to accept. */
  predicate Pending(p: string, q: Scan) {
    match q
    case LabelStart => ValidLabel(p)
    case AfterAlnum => LabelChars(p) && (p == [] || LowerAlnum(p[|p| - 1]))
    case AfterDash => LabelChars(p) && p != [] && LowerAlnum(p[|p| - 1])
  }

  lemma {:induction false} MatchesLabels(s: string, q: Scan)
    ensures Matches(s, q) <==>
      (Pending(Split(s, '.')[0], q) &&
       forall k :: 1 <= k < |Split(s, '.')| ==> ValidLabel(Split(s, '.')[k]))
  {
    if s != [] {
      var rest := Split(s[1..], '.');
      var c := s[0];
      if c == '.' {
        MatchesLabels(s[1..], LabelStart);
        var parts := Split(s, '.');
        assert parts == [[]] + rest;
        assert Pending(parts[0], q) <==> q == AfterAlnum;
        assert Matches(s, q) <==> q == AfterAlnum && Matches(s[1..], LabelStart);
        assert (forall k :: 1 <= k < |parts| ==> ValidLabel(parts[k]))
           <==> (forall k :: 0 <= k < |rest| ==> ValidLabel(rest[k])) by {
          assert forall k :: 1 <= k < |parts| ==> parts[k] == rest[k - 1];
          if forall k :: 1 <= k < |parts| ==> ValidLabel(parts[k]) {
            forall k | 0 <= k < |rest| ensures ValidLabel(rest[k]) {
              assert parts[k + 1] == rest[k];
            }
          }
        }
      } else {
        var p := [c] + rest[0];
        assert Split(s, '.') == [p] + rest[1..];
        assert forall k :: 1 <= k < |Split(s, '.')| ==> Split(s, '.')[k] == rest[k];
        assert p[0] == c && p[1..] == rest[0] && p[|p| - 1] == (if rest[0] == [] then c else rest[0][|rest[0]| - 1]);
        assert LabelChars(p) <==> (LowerAlnum(c) || c == '-') && LabelChars(rest[0]) by {
          if LabelChars(p) {
            forall i | 0 <= i < |rest[0]| ensures LowerAlnum(rest[0][i]) || rest[0][i] == '-' {
              assert rest[0][i] == p[i + 1];
            }
          }
        }
        if LowerAlnum(c) {
          MatchesLabels(s[1..], AfterAlnum);
        } else if c == '-' {
          MatchesLabels(s[1..], AfterDash);
        }
      }
    }
  }

  const InvalidNameText := "', should be lowercase alphanumeric characters or '-' and '.'"

  /** `ValidateK8sConfigMapName`: nil for a DNS subdomain, otherwise an error naming the input.
      (The regular expression is a constant, so the compile-error branch cannot be taken.) */
  function ValidateK8sConfigMapName(name: string): (err: Option<Error>)
    ensures err.None? <==> IsSubdomain(name)
    ensures err.Some? ==> err.value == Failed("invalid name '" + name + InvalidNameText)
  {
    MatchesLabels(name, LabelStart);
    if Matches(name, LabelStart) then None
    else Some(Failed("invalid name '" + name + InvalidNameText))
  }

  // ---------------------------------------------------------------------
  // The Kubernetes objects, holding only the fields the code sets
  // ---------------------------------------------------------------------

  datatype EnvVar = EnvVar(name: string, value: string)
  datatype VolumeSource = SecretVolume(secretName: string, optional: bool) | EmptyDir
  datatype Volume = Volume(name: string, source: VolumeSource)
  datatype VolumeMount = VolumeMount(name: string, mountPath: string, readOnly: bool)
  /** An `EnvFromSource` with a `SecretRef`. */
  datatype SecretEnv = SecretEnv(secretName: string, optional: bool)

  datatype Container = Container(
    name: string,
    image: string,
    pullPolicy: string,
    command: seq<string>,
    workingDir: string,
    volumeMounts: seq<VolumeMount>,
    env: seq<EnvVar>,
    envFrom: seq<SecretEnv>)

  datatype PodSpec = PodSpec(
    volumes: seq<Volume>,
    restartPolicy: string,
    containers: seq<Container>,
    initContainers: seq<Container>)

  datatype PodTemplate = PodTemplate(labels: Record, spec: PodSpec)

  datatype JobSpec = JobSpec(ttlSecondsAfterFinished: int, backoffLimit: int, template: PodTemplate)

  datatype BatchJob = BatchJob(generateName: string, namespace: string, spec: JobSpec)

  datatype BatchCronJob = BatchCronJob(
    name: string,
    namespace: string,
    schedule: string,
    suspend: bool,
    jobTemplate: JobSpec)

  datatype ConfigMapObject = ConfigMapObject(name: string, namespace: string, data: Record)

  datatype SecretObject = SecretObject(name: string, namespace: string, stringData: Record)

  const RepoDir := "/mnt/repo"
  const GitImage := "bitnami/git"

  /** The shell line the init container runs (`fmt.Sprintf("git clone -b %s %s . ; git ls-remote", …)`). */
  function CloneCommand(gitBranch: string, gitURL: string): string {
    "git clone -b " + gitBranch + " " + gitURL + " . ; git ls-remote"
  }

  /** `JobObject` (helpers/k8s.go:271-389): the Job that runs `command` in `image`
      over a fresh clone of `gitURL` at `gitBranch`. */
  function JobObject(
    name: string, namespace: string, jobsTTL: int,
    runnerName: string, image: string, owner: string, extraVars: string,
    command: string, gitURL: string, gitBranch: string): (job: BatchJob)
    ensures job.generateName == name + "-" && job.namespace == namespace
    ensures job.spec.ttlSecondsAfterFinished == Int32(jobsTTL) && job.spec.backoffLimit == 1
    ensures job.spec.template.labels == map["owner" := owner, "task-name" := name]
    ensures job.spec.template.spec.restartPolicy == "Never"
    ensures |job.spec.template.spec.containers| == 1 && |job.spec.template.spec.initContainers| == 1
    ensures var main := job.spec.template.spec.containers[0];
      && main.name == name && main.image == image
      && main.command == ["sh", "-c", command] && main.workingDir == RepoDir
      && (extraVars != "" ==> main.env == [EnvVar("EXTRA_VARS", extraVars)])
      && (extraVars == "" ==> main.env == [])
      && main.envFrom == [SecretEnv(runnerName, true)]
    ensures var init := job.spec.template.spec.initContainers[0];
      && init.name == "init-" + name && init.image == GitImage
      && init.command == ["sh", "-c", CloneCommand(gitBranch, gitURL)]
      && init.workingDir == RepoDir
    ensures Volume("secret", SecretVolume(runnerName, true)) in job.spec.template.spec.volumes
  {
    var env := if extraVars != "" then [EnvVar("EXTRA_VARS", extraVars)] else [];
    var main := Container(
      name, image, "IfNotPresent", ["sh", "-c", command], RepoDir,
      [VolumeMount("secret", "/etc/secret/", true), VolumeMount("repo", RepoDir, false)],
      env,
      [SecretEnv(runnerName, true)]);
    var init := Container(
      "init-" + name, GitImage, "IfNotPresent", ["sh", "-c", CloneCommand(gitBranch, gitURL)], RepoDir,
      [VolumeMount("repo", RepoDir, false)],
      [],
      []);
    BatchJob(
      name + "-",
      namespace,
      JobSpec(
        Int32(jobsTTL),
        1,
        PodTemplate(
          map["owner" := owner, "task-name" := name],
          PodSpec(
            [Volume("secret", SecretVolume(runnerName, true)), Volume("repo", EmptyDir)],
            "Never",
            [main],
            [init]))))
  }

  /** Every container mounts only volumes the pod declares, and no two containers share a name. */
  predicate WellFormedPod(spec: PodSpec) {
    var all := spec.initContainers + spec.containers;
    && (forall c, m :: c in all && m in c.volumeMounts ==> exists v :: v in spec.volumes && v.name == m.name)
    && (forall i, j :: 0 <= i < j < |all| ==> all[i].name != all[j].name)
  }

  /** The compiled pod is one Kubernetes accepts as far as volumes and container names go. */
  lemma JobObjectWellFormed(
    name: string, namespace: string, jobsTTL: int,
    runnerName: string, image: string, owner: string, extraVars: string,
    command: string, gitURL: string, gitBranch: string)
    ensures WellFormedPod(JobObject(name, namespace, jobsTTL, runnerName, image, owner,
                                    extraVars, command, gitURL, gitBranch).spec.template.spec)
  {
    var spec := JobObject(name, namespace, jobsTTL, runnerName, image, owner,
                          extraVars, command, gitURL, gitBranch).spec.template.spec;
    var all := spec.initContainers + spec.containers;
    assert all[0].name == "init-" + name && all[1].name == name;
    assert |all| == 2;
    assert all[0].name != all[1].name by {
      if |name| >= 5 { assert all[0].name[..5] == "init-"; }
      assert |all[0].name| == |name| + 5;
    }
    assert spec.volumes[0].name == "secret" && spec.volumes[1].name == "repo";
  }

  /** Splitting a text at a separator that it contains only at the joint. */
  lemma {:induction false} SplitAround(a: string, b: string, sep: char)
    requires sep !in a
    ensures Split(a + [sep] + b, sep) == [a] + Split(b, sep)
  {
    if a == [] {
      assert [] + [sep] + b == [sep] + b;
      assert ([sep] + b)[1..] == b;
    } else {
      SplitAround(a[1..], b, sep);
      assert (a + [sep] + b)[1..] == a[1..] + [sep] + b;
      assert [a[0]] + a[1..] == a;
    }
  }

  lemma {:induction false} SplitWord(a: string, sep: char)
    requires sep !in a
    ensures Split(a, sep) == [a]
  {
    if a != [] {
      SplitWord(a[1..], sep);
      assert [a[0]] + a[1..] == a;
    }
  }

  /** Splitting `w + " " + tail` at blanks, for a word w without blanks. */
  lemma Word(w: string, tail: string)
    requires ' ' !in w
    ensures Split(w + " " + tail, ' ') == [w] + Split(tail, ' ')
  {
    SplitAround(w, tail, ' ');
  }

  lemma TwoWords(w1: string, w2: string)
    requires ' ' !in w1 && ' ' !in w2
    ensures Split(w1 + " " + w2, ' ') == [w1, w2]
  {
    SplitWord(w2, ' ');
    Word(w1, w2);
  }

  lemma ThreeWords(w1: string, w2: string, w3: string)
    requires ' ' !in w1 && ' ' !in w2 && ' ' !in w3
    ensures Split(w1 + " " + w2 + " " + w3, ' ') == [w1, w2, w3]
  {
    TwoWords(w2, w3);
    Word(w1, w2 + " " + w3);
    assert w1 + " " + (w2 + " " + w3) == w1 + " " + w2 + " " + w3;
  }

  lemma FourWords(w1: string, w2: string, w3: string, w4: string)
    requires ' ' !in w1 && ' ' !in w2 && ' ' !in w3 && ' ' !in w4
    ensures Split(w1 + " " + w2 + " " + w3 + " " + w4, ' ') == [w1, w2, w3, w4]
  {
    ThreeWords(w2, w3, w4);
    Word(w1, w2 + " " + w3 + " " + w4);
    assert w1 + " " + (w2 + " " + w3 + " " + w4) == w1 + " " + w2 + " " + w3 + " " + w4;
  }

  /** Five blank-free words joined by blanks split back into those words. */
  lemma FiveWords(w1: string, w2: string, w3: string, w4: string, w5: string)
    requires ' ' !in w1 && ' ' !in w2 && ' ' !in w3 && ' ' !in w4 && ' ' !in w5
    ensures Split(w1 + " " + w2 + " " + w3 + " " + w4 + " " + w5, ' ') == [w1, w2, w3, w4, w5]
  {
    FourWords(w2, w3, w4, w5);
    Word(w1, w2 + " " + w3 + " " + w4 + " " + w5);
    assert w1 + " " + (w2 + " " + w3 + " " + w4 + " " + w5) == w1 + " " + w2 + " " + w3 + " " + w4 + " " + w5;
  }

  /** Three blank-free words, a blank, then a tail. */
  lemma ThreeWordsThen(w1: string, w2: string, w3: string, tail: string)
    requires ' ' !in w1 && ' ' !in w2 && ' ' !in w3
    ensures Split(w1 + " " + w2 + " " + w3 + " " + tail, ' ') == [w1, w2, w3] + Split(tail, ' ')
  {
    TwoWordsThen(w2, w3, tail);
    Word(w1, w2 + " " + w3 + " " + tail);
    assert w1 + " " + (w2 + " " + w3 + " " + tail) == w1 + " " + w2 + " " + w3 + " " + tail;
  }

  lemma TwoWordsThen(w1: string, w2: string, tail: string)
    requires ' ' !in w1 && ' ' !in w2
    ensures Split(w1 + " " + w2 + " " + tail, ' ') == [w1, w2] + Split(tail, ' ')
  {
    var rest := w2 + " " + tail;
    Word(w2, tail);
    SplitAround(w1, rest, ' ');
    assert w1 + " " + w2 + " " + tail == w1 + [' '] + rest;
  }

  /** When branch and URL hold no blank, the shell hands `git clone` exactly that branch and
      that URL as its arguments (a blank in either would split or inject words). */
  lemma CloneCommandWords(gitBranch: string, gitURL: string)
    requires ' ' !in gitBranch && ' ' !in gitURL
    ensures Split(CloneCommand(gitBranch, gitURL), ' ')
         == ["git", "clone", "-b", gitBranch, gitURL, ".", ";", "git", "ls-remote"]
  {
    var tail := gitURL + " . ; git ls-remote";
    assert tail == gitURL + " " + "." + " " + ";" + " " + "git" + " " + "ls-remote";
    FiveWords(gitURL, ".", ";", "git", "ls-remote");
    var rest := gitBranch + " " + tail;
    assert CloneCommand(gitBranch, gitURL) == "git" + " " + "clone" + " " + "-b" + " " + rest;
    ThreeWordsThen("git", "clone", "-b", rest);
    Word(gitBranch, tail);
  }

  /** `CronJobObject` (helpers/k8s.go:491-505). */
  function CronJobObject(namespace: string, cronjob: CronJob, jobSpec: JobSpec): (cron: BatchCronJob)
    ensures cron.name == cronjob.name && cron.namespace == namespace
    ensures cron.schedule == cronjob.schedule && cron.suspend == cronjob.disable
    ensures cron.jobTemplate == jobSpec
  {
    BatchCronJob(cronjob.name, namespace, cronjob.schedule, cronjob.disable, jobSpec)
  }

  /** The extra-vars text `CreateOrUpdateCronJob` hands to the pod (helpers/k8s.go:437-446). */
  function CronJobExtraVars(cronjob: CronJob, marshal: Json -> string): (extraVars: string)
    ensures |cronjob.extraVars| == 0 ==> extraVars == ""
  {
    if |cronjob.extraVars| > 0 then marshal(JObject(cronjob.extraVars)) else ""
  }

  /** The CronJob `CreateOrUpdateCronJob` builds from the runner record (helpers/k8s.go:440-458). */
  function CronJobFor(namespace: string, jobsTTL: int, cronjob: CronJob, runner: Record,
                      command: string, marshal: Json -> string): BatchCronJob
  {
    var job := JobObject(cronjob.task, namespace, jobsTTL, Get(runner, "name"), Get(runner, "image"),
                         cronjob.owner, CronJobExtraVars(cronjob, marshal), command,
                         Get(runner, "gitURL"), Get(runner, "branch"));
    CronJobObject(namespace, cronjob, job.spec)
  }

  /** A scheduled run is the one-shot Job's pod, labelled for its owner and task, and it gets
      no EXTRA_VARS variable when the CronJob carries no extra vars. */
  lemma CronJobForShape(namespace: string, jobsTTL: int, cronjob: CronJob, runner: Record,
                        command: string, marshal: Json -> string)
    ensures var cron := CronJobFor(namespace, jobsTTL, cronjob, runner, command, marshal);
      && cron.jobTemplate.template.labels == map["owner" := cronjob.owner, "task-name" := cronjob.task]
      && cron.suspend == cronjob.disable
      && (|cronjob.extraVars| == 0 ==> cron.jobTemplate.template.spec.containers[0].env == [])
      && cron.jobTemplate.template.spec.initContainers[0].command
         == ["sh", "-c", CloneCommand(Get(runner, "branch"), Get(runner, "gitURL"))]
  {
  }

  /** `ConfigMap(data, namespace)` (helpers/k8s.go:99-110): the object is named by `data["name"]`. */
  function ConfigMapOf(data: Record, namespace: string): (cm: ConfigMapObject)
    ensures cm.name == Get(data, "name") && cm.data == data && cm.namespace == namespace
  {
    ConfigMapObject(Get(data, "name"), namespace, data)
  }

  /** `Secret(name, namespace, data)` (helpers/k8s.go:161-169): the data goes in as StringData. */
  function SecretOf(name: string, namespace: string, data: Record): (s: SecretObject)
    ensures s.name == name && s.stringData == data && s.namespace == namespace
  {
    SecretObject(name, namespace, data)
  }

  // ---------------------------------------------------------------------
  // ListJobs / ListCronJobs merge (helpers/k8s.go:171-202, 391-421)
  // ---------------------------------------------------------------------

  /** The List options of the selector loop: one labelled call per selector. */
  function Selected(selectors: seq<string>): (opts: seq<Option<string>>)
    ensures |opts| == |selectors|
    ensures forall i :: 0 <= i < |selectors| ==> opts[i] == Some(selectors[i])
  {
    if selectors == [] then [] else [Some(selectors[0])] + Selected(selectors[1..])
  }

  /** No selector: one unfiltered List call; otherwise one call per selector, in order. */
  function Merged<T>(selectors: seq<string>, list: Option<string> -> Result<seq<T>>): Result<seq<T>>
  {
    if selectors == [] then list(None) else Collect(Selected(selectors), list)
  }

  /** The merge succeeds iff every per-selector call does, and then it is their results
      concatenated in selector order, duplicates kept; a failure is the first failing call's. */
  lemma MergedResult<T>(selectors: seq<string>, list: Option<string> -> Result<seq<T>>)
    requires |selectors| > 0
    ensures Merged(selectors, list).Ok? <==> forall i :: 0 <= i < |selectors| ==> list(Some(selectors[i])).Ok?
    ensures Merged(selectors, list).Ok? ==> Merged(selectors, list).value == Flatten(Results(Selected(selectors), list))
    ensures Merged(selectors, list).Err? ==>
      exists i :: (0 <= i < |selectors| && list(Some(selectors[i])) == Err(Merged(selectors, list).error) &&
                   forall j :: 0 <= j < i ==> list(Some(selectors[j])).Ok?)
  {
    var opts := Selected(selectors);
    CollectOk(opts, list);
    if Merged(selectors, list).Err? {
      CollectFirstError(opts, list);
    }
  }

  /** `ListJobs` / `ListCronJobs` with the List call supplied. */
  method ListMerged<T>(selectors: seq<string>, list: Option<string> -> Result<seq<T>>) returns (r: Result<seq<T>>)
    ensures r == Merged(selectors, list)
  {
    if |selectors| == 0 {
      return list(None);
    }
    r := CollectEach(Selected(selectors), list);
  }
}
