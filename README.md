# Kriten, modelled in Dafny

Kriten is a Go REST service that turns Kubernetes into a code-execution platform:

- A **Runner** is a container image plus a git repository, stored as a ConfigMap. Its git token is kept in a Secret of the same name.
- A **Task** is a command run by a Runner, stored as a ConfigMap with an optional JSON schema. Its secret values are kept in a Secret.
- A **Job** is one run of a Task, as a Kubernetes Job. A **CronJob** is a scheduled run, and a **Deployment** a long-running one.
- Access is governed by **roles** (a resource kind, resource ids, and "read" or "write") kept in a SQL database. Roles reach users through role bindings and groups.
- Gin middlewares authenticate every request (webhook HMAC, API token, or JWT from a bearer header or cookie) and authorise it against the caller's roles.

The project models the service layer and its helpers:

- the Kubernetes helpers;
- the task, runner, job, cronjob and deployment services;
- role and group administration over the database;
- the authorisation decision and authorisation lists, the webhook signature check and login;
- the middlewares and the configuration reader.

One module per source file, plus shared modules:

- `Base`: Go's (value, error) returns as `Result`, and the Go string functions the services use.
- `Foreign`: JSON values and the foreign codecs and validators, passed in as functions.
- `Models`: the records.
- `Kube`: a `Cluster` class holding the namespace's ConfigMaps and Secrets. It has methods for the helpers that change them, and the read-only workload calls come in as functions.
- `Tables`: a `Database` class holding the role, binding, user and group tables, with gorm's `Create`, `Updates`, `Delete` and `Find` semantics.

Failures of the Kubernetes API or of the database, other than NotFound and Conflict, are modelled by the store's `faults` set. A call whose kind is in the set fails with `Unavailable`.

Go map iteration order is arbitrary, so the loops over Go maps choose keys nondeterministically. They are proved equal to order-free definitions.

Where the code and its evident intent disagree, the model keeps both. The code is modelled as written, with a concrete input showing the discrepancy, and beside it the corrected operation, which the rest of the model uses (see "## Findings").

## Model

| member | source | states |
|---|---|---|
| Base.IndexOf | services/job_svc.go:123 | the first position where the pattern occurs, and none before it; none when it never occurs (`strings.Index` inside `strings.Replace`) |
| Base.ReplaceChar | services/auth_svc.go:192 | the body with every double quote turned into a single quote and every other character kept, at the same length |
| Base.JoinSplit | services/auth_svc.go:186 | `strings.Split` loses nothing: joining the parts with the separator gives back the text |
| Base.SplitParts | services/auth_svc.go:186 | no part holds the separator, and there is one part more than there are separators |
| Base.Split | services/auth_svc.go:186 | `strings.Split` never answers an empty list |
| Base.ParseBool | config/config.go:115 | `strconv.ParseBool` accepts exactly 1/t/T/TRUE/true/True as true and 0/f/F/FALSE/false/False as false; anything else is a syntax error |
| Base.ParseFormatBool | services/task_svc.go:85-133 | the flag a Task is stored with parses back to itself |
| Base.Int32 | helpers/k8s.go:280 | `int32(kube.JobsTTL)` keeps the value when it fits in 32 bits; otherwise the 32-bit value congruent to it |
| Base.CollectOk | helpers/k8s.go:183-197 | a per-selector loop succeeds iff every call does, and then yields their items concatenated in order, duplicates kept |
| Base.CollectFirstError | helpers/k8s.go:187-190 | a failed loop reports the error of the first failing call, and every earlier call succeeded |
| Base.CollectEach | helpers/k8s.go:183-197 | the loop that appends each call's items and returns on the first error computes exactly that collection |
| Kube.Lookup | helpers/k8s.go:50-61 | a Get by name finds nothing iff no object has that name; what it finds is the data of an object with that name |
| Kube.ReplaceLookup | helpers/k8s.go:63-84 | after an Update, the updated name reads the new data and every other name reads as before |
| Kube.ReplaceLookupOthers | helpers/k8s.go:63-84 | an Update leaves every other name reading as before |
| Kube.WithoutLookup | helpers/k8s.go:86-97 | after a Delete, the deleted name reads nothing and every other name reads as before |
| Kube.AppendLookup | helpers/k8s.go:63-84 | after a Create of a new name, that name reads the new data and every other name reads as before |
| Kube.Dispatch | helpers/k8s.go:69-80 | the operation selects Create iff it is "create" and Update iff it is "update"; any other text makes no call |
| Kube.PutItem | helpers/k8s.go:63-84 | Create fails with Conflict iff the name exists, Update with NotFound iff it does not; on success only that name changes |
| Kube.RemoveItem | helpers/k8s.go:86-97 | Delete fails with NotFound iff the name is absent; on success that name is gone and every other is untouched |
| Kube.PutSecret | helpers/k8s.go:124-147 | the same Create/Update rule for Secrets: Conflict or NotFound by existence, otherwise the name maps to the new data |
| Kube.Cluster.constructor | helpers/k8s.go:38-169 | a namespace's configuration with its ConfigMaps, Secrets, faults and workloads |
| Kube.Cluster.ListConfigMaps | helpers/k8s.go:38-48 | every ConfigMap of the namespace, or the List failure |
| Kube.Cluster.GetConfigMap | helpers/k8s.go:50-61 | the named ConfigMap's data; NotFound exactly when no ConfigMap has the name |
| Kube.Cluster.GetSecret | helpers/k8s.go:112-122 | the named Secret's data; NotFound exactly when there is no such Secret |
| Kube.Cluster.CreateOrUpdateConfigMap | helpers/k8s.go:63-84 | writes the ConfigMap named by `data["name"]` with the Create/Update rule, or does nothing for an unknown operation; the Secrets are untouched |
| Kube.Cluster.DeleteConfigMap | helpers/k8s.go:86-97 | removes the named ConfigMap or reports NotFound; the Secrets are untouched |
| Kube.Cluster.CreateOrUpdateSecret | helpers/k8s.go:124-147 | writes the named Secret with the Create/Update rule, or nothing for an unknown operation; the ConfigMaps are untouched |
| Kube.Cluster.DeleteSecret | helpers/k8s.go:149-159 | removes the named Secret or reports NotFound; the ConfigMaps are untouched |
| Kube.Cluster.ListJobs | helpers/k8s.go:171-202 | one unfiltered List without selectors, otherwise one List per selector merged in order |
| Kube.Cluster.ListCronJobs | helpers/k8s.go:391-421 | the same merge for CronJobs |
| Kube.Cluster.CreateOrUpdateCronJob | helpers/k8s.go:436-476 | submits the CronJob built from the runner record with the requested operation |
| PodSpecs.MatchesLabels | helpers/k8s.go:22 | the regular expression's automaton accepts exactly the non-empty dot-separated labels of lowercase letters, digits and inner dashes |
| PodSpecs.ValidateK8sConfigMapName | helpers/k8s.go:21-36 | no error iff the name is a DNS subdomain; otherwise the error quoting the name |
| PodSpecs.JobObject | helpers/k8s.go:271-389 | the Job is named after the Task, labelled for owner and task, never restarted, retried once, with its TTL truncated to 32 bits; a git-clone init container and a main container that runs the command in the checkout with the runner's Secret and EXTRA_VARS only when there are extra vars |
| PodSpecs.JobObjectWellFormed | helpers/k8s.go:310-388 | every container mounts only declared volumes and the two containers have different names |
| PodSpecs.SplitAround | helpers/k8s.go:285 | splitting at a separator that occurs only at the joint gives the part before it followed by the split of the rest |
| PodSpecs.CloneCommandWords | helpers/k8s.go:285 | with blank-free branch and URL, the shell line hands `git clone -b` exactly that branch and that URL |
| PodSpecs.CronJobObject | helpers/k8s.go:491-505 | the CronJob has the requested name, schedule and suspension, in the namespace, over the given Job template |
| PodSpecs.CronJobExtraVars | helpers/k8s.go:437-446 | no extra variables give an empty EXTRA_VARS text |
| PodSpecs.CronJobForShape | helpers/k8s.go:437-458 | a scheduled run is the one-shot Job's pod: labelled for owner and task, suspended when disabled, without EXTRA_VARS when there are none, cloning the runner's branch and URL |
| PodSpecs.ConfigMapOf | helpers/k8s.go:99-110 | the ConfigMap is named by the data's "name" and holds the data in the namespace |
| PodSpecs.SecretOf | helpers/k8s.go:161-169 | the Secret has the given name and holds the data as StringData |
| PodSpecs.Selected | helpers/k8s.go:183-186 | one labelled List option per selector, in order |
| PodSpecs.MergedResult | helpers/k8s.go:171-202 | the merged list succeeds iff every selector's List does, and is their items in selector order; a failure is the first failing List's |
| PodSpecs.ListMerged | helpers/k8s.go:171-202 | the list loop computes the merge |
| Catalog.ListingMembers | services/task_svc.go:58-67 | a record is listed iff it is of the kind and authorised (first entry "*" or the name listed); no listed record holds a hidden key |
| Catalog.ListRecords | services/runner_svc.go:48-60 | the listing loop computes that listing, in store order |
| Catalog.BoundTask | services/runner_svc.go:160-165 | none iff no Task names the Runner; otherwise a Task that does, with no earlier one |
| Catalog.FindBoundTask | services/runner_svc.go:160-165 | the scan stops at the first Task bound to the Runner |
| Tasks.ListTasks | services/task_svc.go:46-70 | nothing for an empty authorisation list; otherwise the authorised Task records without "synchronous" and "schema", or the List error |
| Tasks.Masked | services/task_svc.go:344-347 | the keys are shown and every value is the mask |
| Tasks.Mask | services/task_svc.go:344-347 | the masking loop computes the masked map |
| Tasks.Cleared | services/task_svc.go:335-350 | an absent Secret is no error and no map; another failure is passed on; a present Secret shows its keys with twelve asterisks |
| Tasks.GetSecret | services/task_svc.go:335-350 | answers what `Cleared` says about the cluster's Secret |
| Tasks.SameEverywhere | services/task_svc.go:375-387 | two maps that agree under every key are equal, so the merge is determined key by key |
| Tasks.Merge | services/task_svc.go:375-387 | every key of the merged Secret is decided by its own current and submitted values, whatever the iteration order |
| Tasks.MergeKeys | services/task_svc.go:377-386 | an unsubmitted key or the twelve-asterisk sentinel keeps the current value, another non-empty value is written, and "" empties a non-empty value but removes an empty or absent one |
| Tasks.Restrict | services/task_svc.go:375 | the submitted entries already visited by the loop |
| Tasks.MergeStep | services/task_svc.go:375-387 | one loop iteration acts on its own key alone |
| Tasks.MergeSecret | services/task_svc.go:375-387 | the merge loop, over the keys in any order, computes the merge |
| Tasks.EchoSentinelKeeps | services/task_svc.go:344-382 | sending back what `GetSecret` showed leaves the Secret as it is |
| Tasks.EchoWrittenOverwrites | services/task_svc.go:374-398 | sending back what `UpdateSecret` answered overwrites those values with the thirteen-asterisk mask, which is not the sentinel |
| Tasks.EmptyTwiceDeletes | services/task_svc.go:379-386 | submitting "" empties a non-empty value, and submitting "" again deletes the key |
| Tasks.UpdateSecret | services/task_svc.go:352-408 | a failed read other than NotFound changes nothing; otherwise the merge is written (Update or Create by existence) and answered with thirteen-asterisk values, or the Secret is deleted when the merge is empty; it fails exactly with `SecretWriteErr` and leaves exactly `SecretsAfter`, or nothing changed |
| Tasks.TaskRecord | services/task_svc.go:129-135 | a Task is stored with exactly its name, runner, command, flag text and schema text, never its secret; the flag parses back |
| Tasks.TaskView | services/task_svc.go:81-94 | every stored value shown as text, the flag as a boolean (false when unparsable), a non-empty schema decoded, and a decode failure an error |
| Tasks.TaskReadsBack | services/task_svc.go:81-135 | a stored Task reads back as submitted when the schema codec round-trips |
| Tasks.GetTask | services/task_svc.go:72-105 | a Task without a runner is not found; otherwise its view and its masked Secret, or the decode or Secret error |
| Tasks.PreWrite | services/task_svc.go:112-127 | a missing Runner or one without an image refuses first; then a submitted schema must validate |
| Tasks.SecretWriteErr | services/task_svc.go:357-407 | the error `UpdateSecret` meets: a failed read other than NotFound, the Update or Create of a non-empty merge, the Delete of an empty one, or NotFound when there was nothing to delete |
| Tasks.SecretsAfter | services/task_svc.go:375-407 | after the write, the Task's Secret holds the merge, or is gone when the merge is empty; every other Secret is as it was |
| Tasks.CreateTask | services/task_svc.go:107-155 | writes nothing when the checks fail; a ConfigMap Create that fails or finds the name taken answers its error and writes nothing; otherwise the ConfigMaps are the old ones plus the Task's `TaskRecord` and the Secrets are exactly those `UpdateSecret` leaves (unchanged when it fails or no secret is submitted), a failed Secret write answering its error; on success the answer is the stored view |
| Tasks.UpdateTask | services/task_svc.go:157-219 | a missing Task or failed check writes nothing; a failed ConfigMap Update answers its error and writes nothing; otherwise the Task's ConfigMap is replaced in place by its `TaskRecord`, every other one untouched, the Secrets are exactly those of the Secret step, whose error is answered; on success the answer is the stored view |
| Tasks.SyncErr | services/task_svc.go:198-211 | the Secret step fails with `UpdateSecret`'s error for a submitted secret; without one only a failed Delete counts, an absent Secret being no error |
| Tasks.SyncedSecrets | services/task_svc.go:198-211 | the Secret step changes nothing when it fails and never touches another Task's Secret; without a submitted secret the Task's Secret is gone |
| Tasks.SyncSecret | services/task_svc.go:198-211 | leaves the ConfigMaps alone, answers exactly the step's error and leaves exactly the step's Secrets: the merge written, or the Secret deleted when none is submitted, and nothing written on a failure |
| Tasks.DeleteTask | services/task_svc.go:221-233 | the ConfigMap must exist and is deleted, then the Secret if any; a missing Secret is no error |
| Runners.ListRunners | services/runner_svc.go:36-63 | nothing for an empty list; otherwise the authorised records that carry an image, nothing hidden |
| Runners.RunnerView | services/runner_svc.go:65-86 | a record without an image is not found; otherwise the record, plus the Secret's token when there is a Secret, and any other Secret failure is passed on |
| Runners.GetRunner | services/runner_svc.go:65-86 | answers the view of the cluster's ConfigMap and Secret |
| Runners.RunnerRecord | services/runner_svc.go:89-92 | a Runner is stored with its name, image, URL and branch, never its token |
| Runners.RunnerReadsBack | services/runner_svc.go:65-107 | a Runner stored with its token reads back with every field; one without a Secret reads back without a token |
| Runners.CreateConfigMapErr | services/runner_svc.go:94 | the ConfigMap Create succeeds iff the call is healthy and the name is free |
| Runners.CreateSecretErr | services/runner_svc.go:99 | the Secret Create succeeds iff the call is healthy and there is no such Secret |
| Runners.CreateRunnerHidesConflict | services/runner_svc.go:94-106 | as written, creating a Runner whose name is taken, with a token, answers no ConfigMap and no error |
| Runners.CreateRunnerAsWritten | services/runner_svc.go:88-107 | the Secret is created even when the ConfigMap Create failed, and the Secret's outcome replaces the ConfigMap's error |
| Runners.CreateRunnerReply | services/runner_svc.go:88-107 | no error iff the ConfigMap Create and, with a token, the Secret Create succeed; a taken name is always an error; on success the stored record is answered |
| Runners.CreateRunner | services/runner_svc.go:88-107 | the first failed Create's error with nothing stored after it; on success the Runner reads back as `RunnerRecord` |
| Runners.UpdateConfigMapErr | services/runner_svc.go:110-123 | the ConfigMap steps succeed iff Get and Update are healthy and the Runner exists |
| Runners.UpdateRunnerReportsNotFound | services/runner_svc.go:131-150 | as written, updating an existing Runner that has no Secret answers the updated record together with NotFound |
| Runners.UpdateRunnerAsWritten | services/runner_svc.go:109-151 | the ConfigMap is updated, the token written or the Secret deleted, and the tolerated NotFound leaks into the answer |
| Runners.UpdateRunnerReply | services/runner_svc.go:109-151 | no error iff the ConfigMap steps and the token step succeed; a missing Runner is always an error; on success the stored record is answered |
| Runners.UpdateRunner | services/runner_svc.go:109-151 | no error once every step succeeded; then the Runner is stored as `RunnerRecord` and its token Secret matches the request |
| Runners.DeleteRunner | services/runner_svc.go:153-178 | refused, naming the Task, while a Task uses the Runner; otherwise the ConfigMap and then any Secret are deleted; success means no Task used it |
| Runners.ListAllJobs | services/runner_svc.go:192-213 | every Job of the namespace, unselected, each summarised; the nil-pointer panic exactly when some listed Job has no start time |
| Jobs.SelectorsFor | services/job_svc.go:42-46 | no selector for a list starting with "*", otherwise one `task-name=` selector per id, in order |
| Jobs.SelectorsNameIds | services/job_svc.go:42-46 | each selector gives back its authorised id once the label prefix is dropped |
| Jobs.TaskSelectors | services/job_svc.go:42-46 | the selector loop computes those selectors |
| Jobs.PodSelectorTerms | services/job_svc.go:74-77 | the pod selector's comma-separated terms are the job name and, when given, the owner |
| Jobs.PodLogsResult | services/job_svc.go:79-98 | zero pods is an error; otherwise the output is every pod's log in pod order, or the first failing log read |
| Jobs.GetJob | services/job_svc.go:73-99 | the logs of the job's pods, narrowed to the owner when a username is given |
| Jobs.JobSummary | services/job_svc.go:58-65 | a listed job's name, owner label, start time, completion time (empty while running) and counters; the nil-pointer panic exactly when the job has no start time |
| Jobs.Summaries | services/runner_svc.go:199-210 | one summary per listed job, in order, when every job has started; otherwise the nil-pointer panic |
| Jobs.ListJobs | services/job_svc.go:34-71 | nothing for an empty list; otherwise the summaries of the merged per-selector listing, its first error, or the nil-pointer panic when a listed job has not started |
| Jobs.WithTokenInverse | services/job_svc.go:120-126 | splicing the token into the URL loses nothing: undoing the first replacement gives back the URL |
| Jobs.Poll | services/job_svc.go:134-148 | Done after the first check that finds the job finished, with every earlier check running; Stopped on the first failed check; TimedOut only when all 200 checks found it running |
| Jobs.CreateJob | services/job_svc.go:101-155 | a missing Task, Runner or unreadable Secret stops before creation; the job clones the runner URL with its token; a synchronous Task answers the job's logs |
| CronJobs.CronJobSummary | services/cronjobs_svc.go:57-63 | a listed CronJob shows only its name and owner label |
| CronJobs.ListCronJobs | services/cronjobs_svc.go:38-66 | nothing for an empty list; otherwise the summaries of the merged per-selector listing, or its first error |
| CronJobs.StripNoise | services/cronjobs_svc.go:107-121 | no newline or backslash remains, and nothing is added |
| CronJobs.StripAppend | services/cronjobs_svc.go:107-121 | stripping works piece by piece |
| CronJobs.StripClean | services/cronjobs_svc.go:107-121 | a clean span is parsed as it is |
| CronJobs.StripIdempotent | services/cronjobs_svc.go:107-121 | stripping twice is stripping once |
| CronJobs.ExtractJson | services/cronjobs_svc.go:107-121 | no data without output or without a delimited span; otherwise the decoded span, or a parse-failure record instead of an error |
| CronJobs.GetCronJob | services/cronjobs_svc.go:68-124 | the CronJob's id and owner with the run's output and the JSON extracted from it; no pods, a failed CronJob read or a failed log read is the error |
| CronJobs.SchemaGate | services/cronjobs_svc.go:135-150 | a Task without a schema lets anything through; otherwise the extra variables are validated against the schema |
| CronJobs.BranchOrMain | services/cronjobs_svc.go:158-162 | the runner's branch, or "main" when it names none; never empty |
| CronJobs.CreateCronJob | services/cronjobs_svc.go:126-185 | the schema gate and the Task, Runner and Secret lookups come before creation; the CronJob answered carries only the id the creation call returned |
| Deployments.DeploymentOf | services/deployments_svc.go:51-73 | a reserved name is skipped; otherwise name, owner, task and replicas, and the extra variables decoded from the first container's first variable; a decode failure is the error |
| Deployments.ListingNamesFromItems | services/deployments_svc.go:51-73 | a successful listing shows no reserved Deployment and only names of listed items |
| Deployments.ListDeployments | services/deployments_svc.go:32-77 | nothing for an empty list; otherwise the converted per-selector listing, stopping at the first item that does not decode |
| Deployments.ConvertItem | services/deployments_svc.go:51-73 | one listed item: the reserved `kriten` and `kriten-frontend` deployments give nothing, an item whose first variable does not decode stops the listing, any other gives its name, owner, task, replicas and decoded variables |
| Deployments.GetDeployment | services/deployments_svc.go:79-83 | the zero Deployment and no error |
| Deployments.CreateDeployment | services/deployments_svc.go:85-94 | nothing is created when the pre-flight checks fail; otherwise the request is answered with the creation call's error |
| Deployments.UpdateDeployment | services/deployments_svc.go:96-98 | the input and no error |
| Deployments.DeleteDeployment | services/deployments_svc.go:100-107 | the deletion call's error |
| Configuration.GetEnv | config/config.go:94-100 | a set, non-empty variable wins; otherwise the default |
| Configuration.Atoi | config/config.go:105 | `strconv.Atoi`: empty text is an error, results fit in 64 bits, and a plain digit string in range gives its value |
| Configuration.Itoa | config/config.go:105 | a decimal text, starting with "-" exactly for negative numbers |
| Configuration.DigitsRoundTrip | config/config.go:105 | the digits of a number read back as that number |
| Configuration.AtoiItoa | config/config.go:105 | every 64-bit integer printed in decimal parses back to itself |
| Configuration.GetEnvAsInt | config/config.go:103-110 | an unset, empty or unparsable variable gives the default; otherwise its value |
| Configuration.GetEnvAsIntItoa | config/config.go:103-110 | a setting written in decimal reads back as written |
| Configuration.GetEnvAsBool | config/config.go:113-120 | an unset or unparsable variable gives the default; otherwise its value |
| Configuration.GetEnvAsBoolFormat | config/config.go:113-120 | a setting written as "true"/"false" reads back as written |
| Configuration.NewConfig | config/config.go:55-91 | namespace, root secret, environment, SSL mode and API secret are never empty; JOBS_TTL and JWT_EXPIRY_SECONDS fall back to their defaults |
| Configuration.DefaultConfig | config/config.go:55-91 | with nothing set, every setting has its default |
| Configuration.ConfigReadsEnv | config/config.go:55-91 | a set, well-formed setting wins over its default |
| Auth.GrantsByAccess | services/auth_svc.go:243-246 | a role on "*" grants everything; a role granting writes grants reads; a read-only role on a named resource never grants writes |
| Auth.WriteCoversRead | services/auth_svc.go:237-251 | whoever may write may read |
| Auth.Decision | services/auth_svc.go:223-252 | API tokens are decided by the token's owner; everything else is granted iff some role of the caller grants it, and a failed lookup is an error |
| Auth.IsAutorised | services/auth_svc.go:223-252 | the role loop that stops at the first granting role reaches that decision |
| Auth.MatchingIds | services/auth_svc.go:261-272 | the ids of the roles for the resource kind, in role order |
| Auth.ScanPlain | services/auth_svc.go:261-272 | without a role whose first id is "*" (or which has none), the list is every matching role's ids, whatever their access |
| Auth.ScanStops | services/auth_svc.go:263-266 | the first matching role whose ids are empty panics, and the first whose first id is "*" makes the list `["*"]` |
| Auth.AuthorizationListCases | services/auth_svc.go:254-273 | the authorisation list is one of those two cases |
| Auth.ScanGrants | services/auth_svc.go:261-272 | whatever the scan admits is granted by the roles scanned or was already admitted |
| Auth.ListedImpliesReadable | services/auth_svc.go:223-273 | when every role's access is "read" or "write", whatever the authorisation list admits the roles grant reading |
| Auth.GetAuthorizationList | services/auth_svc.go:254-273 | the list for the caller's roles, or the role lookup's error or the panic |
| Auth.SignedData | services/auth_svc.go:191-193 | id, dot, timestamp, dot, then the body with its double quotes turned into single quotes |
| Auth.SplitWhole | services/auth_svc.go:186 | a signature without a comma splits into itself |
| Auth.SplitVersioned | services/auth_svc.go:186-189 | a `v,sig` signature splits into its version and signature |
| Auth.ValidateWebhookSignature | services/auth_svc.go:178-221 | a signature not of the form `v,sig` or an unknown webhook is refused; success means the webhook exists, its HMAC matches and its owner is found |
| Auth.WebhookAcceptsExpected | services/auth_svc.go:178-221 | a well-formed signature carrying the expected MAC is accepted with the webhook's owner and Task |
| Auth.LoginUser | services/auth_svc.go:63-105 | root needs the root password; local users need their bcrypt password; directory users must bind, and an existing account is no error; any other provider is unknown |
| Auth.Login | services/auth_svc.go:59-114 | a token with the configured lifetime exactly when the user is authenticated and a token can be made; otherwise the first error |
| Middleware.BearerToken | middlewares/auth.go:88-91 | "" when the header holds no "Bearer " (the split then has one element) |
| Middleware.BearerTokenBetween | middlewares/auth.go:88-91 | for every header holding "Bearer ", the token is the second element of the split: it starts right after the first "Bearer ", holds no "Bearer ", and ends at the next "Bearer " or at the end |
| Middleware.BearerOfHeader | middlewares/auth.go:88-91 | an `Authorization: Bearer <token>` header yields the token |
| Middleware.SchemeOf | middlewares/auth.go:30-99 | a webhook call needs a signature and picks InfraHub when id, timestamp and signature are all set, else the common signature; other calls use the Token header, then the bearer token, then the cookie; every refusal is 401 |
| Middleware.Authenticate | middlewares/auth.go:19-113 | the caller the chosen validator vouches for, with a Task only for webhook calls; a validator's refusal is 401 |
| Middleware.ResourceId | middlewares/auth.go:121-130 | the path id, or "*" when there is none; job reads drop the id's last six characters, and a shorter id panics |
| Middleware.JobIdNamesTask | middlewares/auth.go:121-130 | the id of a run of `JobObject` maps back to the Task it runs |
| Middleware.Verdict | middlewares/auth.go:141-152 | the request continues iff the decision is a grant; a denial is 403 and an error 500 |
| Middleware.AuthorizationMiddleware | middlewares/auth.go:115-154 | the verdict on the decision for the derived id; the panic on a short job id is 500 |
| Middleware.WildcardRolePasses | middlewares/auth.go:141-152 | a caller holding a role on "*" passes every check except on API tokens |
| Middleware.SetAuthorizationListMiddleware | middlewares/auth.go:156-176 | the caller's authorisation list is stored, or 500 (also for the panic on a role without ids) |
| Tables.FirstRoleNamed | services/roles_svc.go:60 | the first non-empty row with the name, or the zero row when there is none |
| Tables.FirstRoleWithId | services/roles_svc.go:88 | the first row with the primary key, or the zero row |
| Tables.FirstBindingNamed | services/role_bindings_svc.go:65 | the first binding with the name, or the zero binding |
| Tables.FirstUserWithId | services/users_svc.go:59 | the first user with the primary key, or the zero user |
| Tables.FirstGroupNamed | services/groups_svc.go:59 | the first non-empty group with the name, found whenever one exists, or the zero group |
| Tables.RowsWithIds | services/roles_svc.go:49 | a row is kept exactly when its primary key is listed, for roles here and for groups at services/groups_svc.go:48 |
| Tables.GetUser | services/users_svc.go:57-69 | a user found by primary key with a username, or not found |
| Tables.GetRoleBinding | services/role_bindings_svc.go:63-75 | a binding found by name, or not found |
| Tables.PatchRole | models/role.go:10-19 | `Updates` writes the non-empty resource and access and, whenever the request carries the id list (a non-nil slice, `[]` included), that list, so `[]` clears the ids; the create-only name is kept and the builtin flag written only when set |
| Tables.PatchRoles | services/roles_svc.go:88 | every row with the role's key is patched and the others are untouched |
| Tables.PatchGroup | models/group.go:10-18 | `Updates` writes the non-empty provider and, whenever the request carries the member list (`[]` included), that list, so `[]` clears the members; the create-only name is kept |
| Tables.PatchGroups | services/groups_svc.go:78 | every row with the group's key is patched and the others are untouched |
| Tables.WithoutRole | services/roles_svc.go:121 | exactly the rows without the key remain |
| Tables.Database.constructor | models/role.go:10-19 | the tables as given |
| Tables.Database.CreateRole | services/roles_svc.go:77 | a clash on the unique name or a set primary key is a Conflict; otherwise the row is appended |
| Tables.Database.UpdateRole | services/roles_svc.go:88 | a zero key is refused; otherwise the rows are patched, the id list written exactly when the request carries one |
| Tables.Database.DeleteRole | services/roles_svc.go:121 | the write fault, or gorm's missing-where error for a zero key; otherwise exactly the rows with the key are removed and the other tables are unchanged |
| Tables.Database.UpdateGroup | services/groups_svc.go:78 | a zero key is refused; otherwise the rows are patched, the member list written exactly when the request carries one |
| Tables.Database.AddGroup | services/groups_svc.go:103 | the membership is recorded exactly when the user service accepts it |
| Roles.ListRoles | services/roles_svc.go:40-56 | nothing for an empty list; every row when it holds "*"; otherwise exactly the rows whose key it lists |
| Roles.GetRole | services/roles_svc.go:58-70 | found iff a row has the (non-empty) NAME; otherwise not found |
| Roles.CheckId | services/roles_svc.go:126-174 | the id must name a runner with an image, a Task or job with a runner, a user, a role or a binding, according to the resource kind |
| Roles.FirstFailure | services/roles_svc.go:126-174 | none iff every id checks out; otherwise the first failing id's error |
| Roles.CheckRole | services/roles_svc.go:126-174 | the loop returns that first failure |
| Roles.CreateRole | services/roles_svc.go:72-80 | nothing is written unless every id checks out; then the role is stored |
| Roles.UpdateRoleReportsNotFound | services/roles_svc.go:93 | as written, a successful update of an existing role answers "role not found", because the re-read looks up the uuid as a name |
| Roles.UpdateRoleAsWritten | services/roles_svc.go:82-98 | the rows are patched, then the role is re-read by NAME with its uuid |
| Roles.RoleWithId | services/roles_svc.go:88 | the row with the key, or not found |
| Roles.PatchedRowFirst | services/roles_svc.go:88 | after the patch, the first row with the key is the patched first row |
| Roles.UpdateRoleReturnsPatched | services/roles_svc.go:82-98 | the corrected re-read answers the row the update wrote |
| Roles.UpdateRole | services/roles_svc.go:82-98 | when the role exists the caller gets the row as updated |
| Roles.FirstBoundTo | services/roles_svc.go:102-110 | none iff no binding names the role; otherwise the first binding that does |
| Roles.FirstBoundAt | services/roles_svc.go:102-110 | a forward scan stopping at an index has found the first binding |
| Roles.DeleteTargetAsWritten | services/roles_svc.go:100-122 | the binding guard compares the parameter with role ids, the role is looked up by name with that parameter, and a builtin role is refused |
| Roles.DeleteByNameOrphans | services/roles_svc.go:106-121 | as written, deleting by name any non-builtin role whose name differs from its uuid succeeds although a binding refers to it, and the binding is left without its role |
| Roles.DeleteRoleOrphansBinding | services/roles_svc.go:107-112 | as written, deleting a bound role by name succeeds and leaves a binding without its role |
| Roles.DeleteRoleByIdNotFound | services/roles_svc.go:107-112 | as written, deleting by uuid cannot find the role |
| Roles.DeleteRoleAsWritten | services/roles_svc.go:100-122 | deletes the target chosen by the as-written guard |
| Roles.DeleteTarget | services/roles_svc.go:100-122 | the corrected target is a non-builtin role with the name that no binding refers to |
| Roles.DeleteKeepsBindingsResolved | services/roles_svc.go:100-122 | deleting the corrected target never leaves a binding without its role |
| Roles.DeleteRole | services/roles_svc.go:100-122 | removes exactly the target's rows, and keeps every binding resolved |
| Groups.ListGroups | services/groups_svc.go:37-55 | nothing for an empty list; every row when it holds "*"; otherwise exactly the rows whose key it lists |
| Groups.GetGroup | services/groups_svc.go:57-69 | found iff a row has the non-empty name; then the first such row |
| Groups.DedupElements | services/groups_svc.go:145-155 | removing duplicates keeps exactly the same elements |
| Groups.DedupDistinct | services/groups_svc.go:145-155 | no element is left twice |
| Groups.DedupSubsequence | services/groups_svc.go:145-155 | the elements stay in their original order |
| Groups.DedupOfDistinct | services/groups_svc.go:145-155 | a list without duplicates is left as it is |
| Groups.DedupIdempotent | services/groups_svc.go:145-155 | removing duplicates twice is removing them once |
| Groups.RemoveDuplicates | services/groups_svc.go:145-155 | the first occurrence of each element, in order: no duplicates, the same elements |
| Groups.PatchedGroupFirst | services/groups_svc.go:78-83 | after the patch, the first row with the name is the patched first row |
| Groups.UpdateGroup | services/groups_svc.go:77-88 | the rows are patched and the group re-read by name; an existing group answers as updated |
| Groups.EnrolInOrder | services/groups_svc.go:97-107 | memberships are recorded in request order, one per id up to the first failure, and one for every id when nothing fails |
| Groups.EnrolStep | services/groups_svc.go:97-107 | one pass of the loop: an unknown user or a failed AddGroup ends it with that error and no further membership, otherwise the user's membership is recorded before the rest of the list |
| Groups.EnrolEach | services/groups_svc.go:97-107 | the loop records exactly those memberships and reports that failure |
| Groups.AddUsers | services/groups_svc.go:90-117 | every id is added in order; on success the group holds its old members and the new ids without duplicates, each requested id among them |

## Left out

- Networking, HTTP routing and the controllers (controllers/*.go): the model starts at the service calls the controllers make.
- The Kubernetes client, the database and the user, webhook, token and audit services are not modelled beyond what the services read and write. Namespace ConfigMaps and Secrets live in `Kube.Cluster`, the role, binding, user and group tables in `Tables.Database`, and the running cluster's Jobs, pods, logs, CronJobs and Deployments are functions supplied with the cluster.
- API failures other than NotFound and Conflict are one `Unavailable` error per call kind, chosen by the store's fault set. Their text is not modelled.
- encoding/json, the OpenAPI schema validators (`ValidateSchema`, `validate.AgainstSchema`), `findDelimitedString` and `PreFlightChecks` are foreign code supplied as functions. So are bcrypt, LDAP, JWT creation and validation, the HMAC, and `UserService.AddGroup`.
- The webhook validators the authentication middleware calls (`ValidateWebhookSignatureInfraHub`, `ValidateWebhookSignatureCommon`) and `ValidateAPIToken` are functions supplied to `Middleware.Authenticate`. services/auth_svc.go holds a single `ValidateWebhookSignature`, which is modelled on its own.
- `GetAdminGroups`, `GetSchema`, `UpdateSchema`, `DeleteSchema`, `DeleteSecret` of the task service, `GetTaskConfigMap` and `Refresh` are thin wrappers over helpers that are already modelled, and are not modelled themselves.
- `helpers.CreateJob`, `helpers.CreateCronJob`, `helpers.ListDeployments`, `helpers.CreateOrUpdateDeployment`, `helpers.DeleteDeployment`, `ListPods`, `GetLogs` and `GetJob` talk to the running cluster. They are supplied functions. `JobObject` and `CronJobObject`, which they would submit, are modelled.
- Go returns partial values beside some errors. The model answers a `Result` and drops them. They are the request's role beside a `CheckRole` error in `CreateRole` and `UpdateRole` and beside the database error in `CreateRole` (services/roles_svc.go:75-79, services/roles_svc.go:85); the Task's data beside a Secret read error in `GetTask` (services/task_svc.go:101); an empty map beside a failed Secret write or Delete in `UpdateSecret` (services/task_svc.go:392, services/task_svc.go:404); and the CronJob's id and owner beside a `GetLogs` error in `GetCronJob` (services/cronjobs_svc.go:99). `AddUsers` answers an empty `models.Group{}` on every error, which the model's `Err` stands for. `CreateCronJob` keeps its id beside the error, because that is what it answers.
- Go distinguishes nil from empty lists and maps in its JSON output. The model does not.
- Timing: `wait.Poll`'s 100 ms interval and 20 s timeout are modelled as at most 200 checks. Real time is not modelled.
- Logging (`log.Println`, `fmt.Println`) is not modelled.
- Reading the request body in the middleware can fail with 400. The model treats the body as given.
- Run-time panics are modelled as the `Panic` error. These are an authorisation list from a role without ids, a job id shorter than six characters in the authorisation middleware, a listed Job whose `Status.StartTime` is nil (not started or suspended), which the model reports as `Jobs.NoStartTime`, and a listed Deployment without containers (`Containers[0]`), which the model reports as the `NoContainer` error. gin's recovery handler answers them with 500.
- Middleware.ResourceId: Go strings are bytes, and `resourceID[:len(resourceID)-6]` (middlewares/auth.go:129) counts bytes. The model's strings are characters, so it checks the length and trims six characters. The two agree when the id ends in six single-byte (ASCII) characters, as every generated job id does. For a non-ASCII id they differ: Go trims "ééé" (six bytes) to "" where the model answers the short-id panic. A byte count can also cut a character in two, which a string of characters cannot hold.
- gorm's key generation (`gen_random_uuid()`) and time stamps are not modelled. Neither is the database error that PostgreSQL raises for an id that is not a uuid, whether in `Find(&rows, ids)` or in `GetUser`'s `Where("user_id = ?", id)` (services/users_svc.go:59). The model looks such an id up like any other, so no row matches: `Find` leaves it out, and `CheckRole` and `AddUsers` report `UserNotFound` where Go reports the database error. The groups' unique (provider, name) index is modelled as uniqueness of the name alone.
- `CreateGroup`, `DeleteGroup`, `GetGroupRoles` and the users, tokens, webhooks, audit and role-bindings services are not modelled. The exceptions are `GetUser` and `GetRoleBinding`, and the `ListRoleBindings` call on "*" that `DeleteRole` makes.
- The snapshot's `helpers.CreateJob` takes more arguments than services/job_svc.go passes to it. The model follows the service's call (`Kube.JobRequest`). `helpers.CreateCronJob` is not in the snapshot's helpers/k8s.go; the model supplies it as a function.
- Runners.UpdateRunner: the token Secret is stated only for a successful update whose Secret read was healthy.
- CronJobs.ExtractJson: `findDelimitedString` and the JSON decoder are supplied functions, so only the stripping and the decision between data, parse-failure record and nothing are proved.
- PodSpecs.CronJobExtraVars: the marshalled text for non-empty extra variables comes from the supplied JSON encoder and is not constrained.

## Findings

| source | as written | input that shows it | evidently intended | confidence | as-written member | corrected member |
|---|---|---|---|---|---|---|
| services/runner_svc.go:131-150 | the Secret write at line 139 declares a new `err` in an inner scope, so the NotFound tolerated at line 131 (or at 144 without a token) stays in the outer `err` and is returned at 150 | updating an existing Runner that has no Secret | the updated ConfigMap and no error | high; not executed | Runners.UpdateRunnerReportsNotFound | Runners.UpdateRunner |
| services/runner_svc.go:94-106 | the Secret Create at line 99 overwrites the ConfigMap Create's error from line 94 | creating a Runner whose name is taken, with a token and no Secret yet: answered with no ConfigMap and no error, and a Secret is created | the ConfigMap Create's Conflict, and no Secret written | high; not executed | Runners.CreateRunnerHidesConflict | Runners.CreateRunner |
| services/roles_svc.go:93 | after the update, the role is re-read with `GetRole(role.ID.String())`, and `GetRole` looks roles up by name | updating role "ops" with id 6f0c8a4e-0d3b-4c1e-9a57-2b8f1d9c3e10 to ids ["build"] and access "write": the row is patched, yet the answer is "role … not found" | re-read by primary key and answer the updated row | high; not executed | Roles.UpdateRoleReportsNotFound | Roles.UpdateRole |
| services/roles_svc.go:107-112 | the binding guard compares the parameter with binding role ids (uuids), but the role is then looked up by name with that same parameter | deleting role "ops" by name while binding "ops-binding" refers to its id: the role is removed and the binding is left dangling; deleting it by uuid answers "not found" | look the role up first and compare the bindings with its primary key | high; not executed | Roles.DeleteRoleOrphansBinding | Roles.DeleteRole |
