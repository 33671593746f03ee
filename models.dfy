/** The records of the `models` package. UUIDs are kept as their text form. */
module Models {
  import opened Base
  import opened Foreign

  /** A Task as submitted by a client; `secret` and `schema` are Go maps that may be nil. */
  datatype Task = Task(
    name: string,
    runner: string,
    command: string,
    synchronous: bool,
    secret: Option<Record>,
    schema: Option<Object>)

  /** A Runner as submitted by a client. */
  datatype Runner = Runner(name: string, image: string, gitURL: string, token: string, branch: string)

  /** One run of a Task as the job endpoints report it. */
  datatype Job = Job(
    id: string,
    owner: string,
    startTime: string,
    completionTime: string,
    failed: int,
    completed: int,
    stdout: string,
    jsonData: Option<Object>)

  const EmptyJob := Job("", "", "", "", 0, 0, "", None)

  /** helpers/k8s.go reads a `Name` and services/cronjobs_svc.go writes `Stdout`/`JsonData`:
      the snapshots disagree, so the datatype carries the union of their fields. */
  datatype CronJob = CronJob(
    id: string,
    name: string,
    owner: string,
    task: string,
    schedule: string,
    disable: bool,
    extraVars: Object,
    stdout: string,
    jsonData: Option<Object>)

  const EmptyCronJob := CronJob("", "", "", "", "", false, map[], "", None)

  datatype Deployment = Deployment(
    name: string,
    owner: string,
    task: string,
    replicas: int,
    extraVars: Option<Object>)

  const EmptyDeployment := Deployment("", "", "", 0, None)

  /** The text of the zero `uuid.UUID`, which gorm leaves in a row it did not find. */
  const NilUuid := "00000000-0000-0000-0000-000000000000"

  datatype Role = Role(
    id: string,
    name: string,
    resource: string,
    resourcesIds: seq<string>,
    access: string,
    builtin: bool)

  const EmptyRole := Role("", "", "", [], "", false)

  datatype RoleBinding = RoleBinding(
    id: string,
    name: string,
    roleId: string,
    roleName: string,
    subjectKind: string,
    subjectProvider: string,
    subjectId: string,
    subjectName: string,
    builtin: bool)

  datatype User = User(id: string, username: string, provider: string, groups: seq<string>, builtin: bool)

  datatype Group = Group(id: string, name: string, provider: string, users: seq<string>, builtin: bool)

  const EmptyGroup := Group("", "", "", [], false)

  datatype Credentials = Credentials(username: string, password: string, provider: string)

  /** What a request asks for: who, on which resource kind, which id, with which access. */
  datatype Authorization = Authorization(
    userId: string,
    provider: string,
    resource: string,
    resourceId: string,
    access: string)
}
