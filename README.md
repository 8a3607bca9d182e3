# A model of the carbon-aware Kubernetes scheduler

This project models the core of the carbon-aware scheduler for Kubernetes
clusters on the NRP platform in Dafny, and proves properties of it. The
core has five parts.

- **Storage CLI.** The storage command line tools (`cli/storage`):
  - locator parsing over the LOCAL, S3 and PVC grammars, tried in a fixed order;
  - the routing of a transfer over the nine pairs of storage types;
  - the Kubernetes transfer job: template substitution, job creation, and the status-polling wait loop;
  - PVC creation: the storage-class table, the config built from a template, and the `Bound`-polling wait loop;
  - the argument rule of the `pvc` command and its dispatch.
- **Job scheduler API.**
  - validation of a job request (names, image names, mountpoints, storage URLs, resource quantities, overlapping inputs and outputs);
  - the region list read from the environment;
  - the queue names, and the declaration and start-up message of each region's queue;
  - best-location choice with a fallback to the first region;
  - publishing a request to its region's queue;
  - the job status lookup.
- **Executor agent.** It turns a job message into a Kubernetes job config, creates the job, and saves the outcome of each message exactly once.
- **Dashboard.** The per-event contributions to the running counts of jobs and of requested cores.
- **Node-info service.** The node table built from CSV rows, and its three lookups.

External programs are parameters of the model:
- `kubectl`, `rclone`, the AMQP command line tools, the database and the carbon API;
- each is a function from the command issued to whether it fails, and to what it answers;
- every command issued is appended to a log, so the contracts state the exact sequence of commands.

Polling loops that the source runs until a condition holds are given
finite sequences of answers. When every answer says "keep waiting",
the outcome is `StillWaiting`.

Python's `re.match` with a final `$` also accepts one trailing newline.
`PathGrammar.AnchoredMatch` models this, and every regular expression of
the core is matched through it.

Modules, one per source file plus five shared ones:
- `Common` holds `Option`, `Result`, character classes and string helpers.
- `Yaml` holds loaded YAML/JSON values, whose dicts are ordered association lists, with reading and assigning along a path.
- `Trace` holds the prefix of a call plan up to the first failing call.
- `Kube` holds the kubectl commands, the cluster oracle and the poll logs.
- `Shell` holds Python's `shlex.quote` and the non-POSIX `shlex.split` with which the executor's `run_command` turns a command line into arguments.

## Model

| member | source | states |
|---|---|---|
| NrpStorage.ParsePath | cli/storage/nrp_storage.py:59-65 | a locator no grammar accepts yields the error `Unable to parse path "<s>"` |
| NrpStorage.ParseKind | cli/storage/nrp_storage.py:37-41 | parsing yields type t exactly when t's grammar accepts the string, and fails exactly when none of the three does |
| NrpStorage.GrammarsDisjoint | cli/storage/nrp_storage.py:26-30 | no string is accepted by two grammars, so the S3, PVC, LOCAL order never changes the result |
| NrpStorage.MatchText | cli/storage/nrp_storage.py:26-30 | an accepted string is the match or the match plus one newline; S3 and PVC matches start with their scheme; a LOCAL match has no colon |
| NrpStorage.LocalNoColon | cli/storage/nrp_storage.py:26 | a LOCAL locator contains no colon |
| NrpStorage.ParseShape | cli/storage/nrp_storage.py:59-64 | `path` is group 1, the text after the scheme; for S3/PVC `paths` is [name, inner path] with path == name + ":" + inner; for LOCAL `paths` is [path] |
| NrpStorage.ParseEmpty | cli/storage/nrp_storage.py:26 | the empty string parses as LOCAL with path "" |
| NrpStorage.RouteTotal | cli/storage/nrp_storage.py:67-113 | every one of the nine type pairs has a route, so `Unhandled cases` is unreachable; a single direct rclone sync exactly for local/local and local/S3 |
| NrpStorage.Storage.Sync | cli/storage/nrp_storage.py:116-120 | the source locator is parsed and stored first; a parse error stops before any helper call; otherwise the helpers' log grows by the route's plan up to the first raising call, and success means every call returned |
| NrpStorage.Storage.SyncParsed | cli/storage/nrp_storage.py:67-114 | `_sync` issues the route's plan up to the first call that raises |
| NrpStorage.Storage.Step | cli/storage/nrp_storage.py:67-114 | one helper call is logged and its failure ends the sync |
| NrpStorage.Storage.BridgeLocalToPvc | cli/storage/nrp_storage.py:86-96 | local to PVC goes through a temporary bucket: create, sync, size, transfer job, delete, stopping at the first raising call |
| NrpStorage.Storage.BridgePvcToLocal | cli/storage/nrp_storage.py:97-104 | PVC to local: create the bucket, transfer job, sync into the source's `.path`, delete, stopping at the first raising call |
| NrpStorage.Helpers.Issue | cli/storage/nrp_storage.py:67-114 | a helper call is logged and returns unless it raises |
| NrpStorage.Helpers.GetSize | cli/storage/nrp_storage.py:96 | `get_size` is logged and reports the oracle's size |
| NrpStorage.DirectRoutes | cli/storage/nrp_storage.py:70-85 | the direct routes make one rclone sync of the two `.path` strings; S3 to S3 passes the parsed records instead |
| NrpStorage.SameKindRoutesFail | cli/storage/nrp_storage.py:75-80 | PVC to PVC and S3 to S3 make one call, and it raises whatever the environment does |
| NrpStorage.LocalToPvcBucketLifecycle | cli/storage/nrp_storage.py:86-104 | the exact five-call plan of local to PVC; the bucket is deleted exactly when every earlier call returned |
| NrpStorage.PvcToLocalBucketLifecycle | cli/storage/nrp_storage.py:86-104 | the exact four-call plan of PVC to local; the bucket is deleted exactly when every earlier call returned |
| NrpStorage.BucketDeletedIffLegsReturn | cli/storage/nrp_storage.py:103-104 | the final delete is issued exactly when every call before it returned |
| NrpStorage.S3PvcRoutes | cli/storage/nrp_storage.py:105-111 | S3 to PVC sizes the source and passes that size to the transfer; PVC to S3 passes no size |
| NrpStorage.NameColonSplit | cli/storage/nrp_storage.py:28-30 | the name part of an S3/PVC locator has no colon, and the locator is name + ":" + rest |
| NrpStorage.SegCharsAlphabet | cli/storage/nrp_storage.py:26-30 | a `[\w.-]+` run holds only segment characters |
| PathGrammar.PathBodyShape | cli/storage/nrp_storage.py:28 | `[\w.-]+(?:/[\w.-]+)*/?` is exactly: non-empty, segment characters and slashes only, no leading slash, no two slashes in a row |
| PathGrammar.AnchoredMatch | cli/storage/nrp_storage.py:26 | a `^...$` match is the whole string, or the string without one final newline |
| PathGrammar.PathBodyNoColon | cli/storage/nrp_storage.py:28 | a path body contains no colon |
| K8sHelper.IsJobCompleted | cli/storage/k8s_helper.py:26-38 | not completed iff there is no `completionTime`; completed iff there is one and `succeeded` is present and not null; otherwise a ValueError, also for output that is not JSON |
| K8sHelper.CompletionExamples | cli/storage/k8s_helper.py:34-38 | `succeeded: 0` with a completion time counts as completed; a null `succeeded` raises |
| K8sHelper.WaitForJob | cli/storage/k8s_helper.py:55-62 | the wait loop logs one poll and one 10-second sleep per "not completed" answer, then the deciding poll; it ends as that answer says |
| K8sHelper.JobWaitSleeps | cli/storage/k8s_helper.py:55-62 | with k "not completed" answers before the deciding one, the loop polls k+1 times and sleeps k times |
| K8sHelper.Substitute | cli/storage/k8s_helper.py:49-51 | the loop replaces the four placeholders one after the other, in dict order |
| K8sHelper.PlaceholderCanReappear | cli/storage/k8s_helper.py:43-51 | a value without `VAR_` can still complete a placeholder that a later pass never replaces |
| K8sHelper.LastValueCompletes | cli/storage/k8s_helper.py:49-51 | a template that starts with `VAR_dst` becomes the destination value followed by the rest |
| K8sHelper.SubstitutionIsSimultaneous | cli/storage/k8s_helper.py:49-51 | for a template of V-free text and placeholder tokens, and V-free values, sequential replacement equals simultaneous substitution and leaves no placeholder |
| K8sHelper.ReplaceStep | cli/storage/k8s_helper.py:51 | one `str.replace` turns exactly the tokens of one placeholder into its value |
| K8sHelper.ReplaceAbsent | cli/storage/k8s_helper.py:51 | replacing a pattern that does not occur changes nothing |
| K8sHelper.SplitPvcLocator | cli/storage/k8s_helper.py:68 | unpacking `split(':', 2)` into two names succeeds iff there is exactly one colon, and cuts the text at it |
| K8sHelper.GrownSize | cli/storage/k8s_helper.py:71 | `int(size * 1.2)` for a non-negative size: at least the size, and the floor of 12·size/10 |
| K8sHelper.Helper.constructor | cli/storage/k8s_helper.py:14-24 | the helper keeps the transfer template under `s3_pvc_transfer` |
| K8sHelper.Helper.RunTransferJob | cli/storage/k8s_helper.py:40-63 | the job is named `s3-pvc-transfer-<random>`; the substituted manifest is created; the wait loop runs only when the create succeeded |
| K8sHelper.Helper.SyncS3ToPvc | cli/storage/k8s_helper.py:66-72 | a bad destination raises before any command; a missing PVC is created with 1.2 times the size first, and a failed creation stops; then the job runs as (PVC, source, inner path) |
| K8sHelper.Helper.SyncPvcToS3 | cli/storage/k8s_helper.py:74-77 | a bad source raises before any command; otherwise the job runs as (PVC, inner path, destination) |
| K8sHelper.Helper.SyncPvcToPvc | cli/storage/k8s_helper.py:79-81 | always raises `Currently not implemented` |
| K8sHelper.PvcToS3CreatesOnlyTheJob | cli/storage/k8s_helper.py:53-62 | the only create in a transfer log is the job manifest, issued first |
| K8sHelper.PollLogOnlyPolls | cli/storage/k8s_helper.py:55-62 | a wait loop issues only its poll and sleeps |
| Kube.PollLogSleeps | cli/storage/pvc.py:115-123 | with k waiting answers before the deciding one, a wait loop sleeps k times and ends on its poll |
| Kube.FirstDecisive | cli/storage/pvc.py:115-123 | the answer that ends a wait loop is the first one that does not say "keep waiting" |
| Pvc.LoadStorageClasses | cli/storage/pvc.py:25-47 | the loader keeps, in table order, exactly the rows whose `Restrictions` is empty |
| Pvc.UnrestrictedMembers | cli/storage/pvc.py:35-37 | a row is kept iff it is in the table and its restrictions are empty |
| Pvc.UnrestrictedAppend | cli/storage/pvc.py:35-46 | the filter keeps table order |
| Pvc.GetPvcStorageClass | cli/storage/pvc.py:49-61 | the result is a listed class with the region, the filesystem type and no restrictions; the error, naming both, iff no class fits |
| Pvc.StorageClassIsFirst | cli/storage/pvc.py:53-56 | the class chosen is the first that fits |
| Pvc.CreatePvcConfig | cli/storage/pvc.py:94-102 | the four in-place assignments of the config, with the class lookup after the first |
| Pvc.PvcConfigDefined | cli/storage/pvc.py:94-102 | the config is built iff the template has the dicts assigned into and a class fits |
| Pvc.PvcConfigContents | cli/storage/pvc.py:97-101 | the config holds the name, the class, its access mode as a one-element list and the size; every untouched path is as in the template |
| Pvc.WaitUntilBound | cli/storage/pvc.py:115-123 | poll the phase; sleep 10 seconds after every phase other than `Bound`; a failing poll raises |
| Pvc.CreateAndWait | cli/storage/pvc.py:114-125 | create the document, wait until bound, then `kubectl get pvc`, stopping at the first failure |
| Pvc.CreatePvc | cli/storage/pvc.py:109-125 | no command is issued when the config cannot be built; otherwise create, wait and show |
| Pvc.CreationSleeps | cli/storage/pvc.py:115-125 | with k other phases before `Bound`, creation sleeps exactly k times, between the create and the final get |
| Pvc.ParseArgs | cli/storage/pvc.py:74-85 | accepted iff the action is a choice, create and delete have a non-empty name, and create has a non-empty size; the name error comes first |
| Pvc.RunCommand | cli/storage/pvc.py:135-146 | a rejected command line issues nothing; otherwise exactly the one matching action runs, create with the default region and filesystem type |
| Config.Split | src/docker/images/master/job-scheduler/api/config.py:7 | `split(":")` never yields an empty list |
| Config.Regions | src/docker/images/master/job-scheduler/api/config.py:7-10 | the region list is never empty, so the assertion cannot fail |
| Config.JoinSplit | src/docker/images/master/job-scheduler/api/config.py:7 | joining the regions with colons gives back the variable |
| Config.SplitNoColon | src/docker/images/master/job-scheduler/api/config.py:7 | no region contains a colon |
| Config.SplitLength | src/docker/images/master/job-scheduler/api/config.py:7-10 | one region more than there are colons |
| Config.EmptyRegionsKept | src/docker/images/master/job-scheduler/api/config.py:7 | empty regions are kept: "a::b" gives three, "" gives one empty region |
| JobRequest.NameShape | src/docker/images/master/job-scheduler/api/models/job_request.py:49-51 | a valid name is a non-empty run of `[\w.-]`, optionally followed by one newline |
| JobRequest.NameIsImageName | src/docker/images/master/job-scheduler/api/models/job_request.py:49-55 | every valid job name is a valid image name |
| JobRequest.MountpointShape | src/docker/images/master/job-scheduler/api/models/job_request.py:29-31 | a mountpoint is empty, or starts with a slash, uses only segment characters and slashes, and has no double slash |
| JobRequest.MountpointExamples | src/docker/images/master/job-scheduler/api/models/job_request.py:29-31 | "", "/" and "/a/b/" are valid mountpoints; "a" and "//" are not |
| JobRequest.PvcUrlShape | src/docker/images/master/job-scheduler/api/models/job_request.py:17-26 | a URL parses as PVC volume n iff n is a valid name and the URL is `pvc://n` with an optional slash and an optional final newline |
| JobRequest.PvcGroupShape | src/docker/images/master/job-scheduler/api/models/job_request.py:17 | the captured PVC name excludes the optional final slash |
| JobRequest.S3SplitShape | src/docker/images/master/job-scheduler/api/models/job_request.py:15-18 | the S3 grammar accepts exactly `s3://<region>:<path>` with a listed region and a path body |
| JobRequest.S3UrlShape | src/docker/images/master/job-scheduler/api/models/job_request.py:18-26 | a URL parses as S3 object (r, p) iff r is a listed region, p a path body, and the URL `s3://r:p` with an optional final newline |
| JobRequest.NotPvc | src/docker/images/master/job-scheduler/api/models/job_request.py:21-26 | an `s3://` URL is never taken for a PVC URL |
| JobRequest.ValidateMountpoints | src/docker/images/master/job-scheduler/api/models/job_request.py:37-47 | returns True iff every mountpoint and every URL is valid; otherwise raises with the messages joined by newlines, in entry order |
| JobRequest.MountpointErrorsEmpty | src/docker/images/master/job-scheduler/api/models/job_request.py:37-47 | no messages iff every entry is valid |
| JobRequest.MountpointErrorsRecorded | src/docker/images/master/job-scheduler/api/models/job_request.py:40-43 | every invalid mountpoint and every invalid URL has its message |
| JobRequest.ValidateNonOverlapping | src/docker/images/master/job-scheduler/api/models/job_request.py:102-110 | accepted iff no key is both an input and an output; the error names both fields with the same message |
| JobRequest.IntegerQuantitiesRaise | src/docker/images/master/job-scheduler/api/models/job_request.py:70-82 | an integer CPU or memory quantity raises, because `x is int` never holds and the regex then gets an integer |
| JobRequest.QuantityRelations | src/docker/images/master/job-scheduler/api/models/job_request.py:74-81 | a plain number is a valid CPU and memory quantity; with `m` it is a valid CPU quantity but not a memory quantity |
| JobRequest.MemorySuffixExample | src/docker/images/master/job-scheduler/api/models/job_request.py:81 | "256Mi" is a valid memory quantity |
| JobRequest.MemoryExponentExample | src/docker/images/master/job-scheduler/api/models/job_request.py:81 | "1e3" is a valid memory quantity |
| JobRequest.BareSuffixExample | src/docker/images/master/job-scheduler/api/models/job_request.py:81 | a suffix without a number, "Mi", is not a memory quantity |
| JobRequest.NoNumberSuffix | src/docker/images/master/job-scheduler/api/models/job_request.py:81 | text with no digit or dot never matches a suffixed quantity |
| JobQueue.QueueName | src/docker/images/master/job-scheduler/api/helpers/job_queue.py:27-28 | the queue name is the prefix, a dot and the region |
| JobQueue.QueueNameInjective | src/docker/images/master/job-scheduler/api/helpers/job_queue.py:27-28 | different regions get different queue names |
| JobQueue.InitPlanShape | src/docker/images/master/job-scheduler/api/helpers/job_queue.py:16-25 | 2n commands for n regions: region i is declared at 2i and sent `Startup` at 2i+1 |
| JobQueue.InitPlanPrefix | src/docker/images/master/job-scheduler/api/helpers/job_queue.py:16-25 | the plan of a prefix of the regions is a prefix of the plan |
| JobQueue.Queue.constructor | src/docker/images/master/job-scheduler/api/helpers/job_queue.py:12-14 | the constructor issues no command; the queues are not declared |
| JobQueue.Queue.SendMessageToRegion | src/docker/images/master/job-scheduler/api/helpers/job_queue.py:31-38 | exactly one publish of the message to the region's queue |
| JobQueue.Queue.InitJobQueues | src/docker/images/master/job-scheduler/api/helpers/job_queue.py:16-25 | the commands are the plan up to the first failing one; success iff all succeed |
| JobQueue.Queue.StoppedAt | src/docker/images/master/job-scheduler/api/helpers/job_queue.py:16-25 | a failing command is the last one issued |
| JobScheduler.QuerySizes | src/docker/images/master/job-scheduler/api/routes/job_scheduler.py:30-37 | both sizes sent are 0, the outputs are never read, and all regions are candidates |
| JobScheduler.MinIndex | src/docker/images/master/job-scheduler/api/routes/job_scheduler.py:38 | `min` picks an entry with the least emission, the earliest among equals |
| JobScheduler.Best | src/docker/images/master/job-scheduler/api/routes/job_scheduler.py:38 | a location is chosen iff there are locations and all have `total_emission`; it has the least emission, ties to the earliest |
| JobScheduler.GetBestLocation | src/docker/images/master/job-scheduler/api/routes/job_scheduler.py:30-41 | the best scored location; the first region when the client or `min` raises |
| JobScheduler.StubPlacesInFirstRegion | src/docker/images/master/job-scheduler/api/helpers/carbon_api_client.py:11-12 | with the repository's client every job goes to the first region |
| JobScheduler.StrictMinimumChosen | src/docker/images/master/job-scheduler/api/routes/job_scheduler.py:38 | a strictly lowest emission is chosen |
| JobScheduler.SendJobToQueue | src/docker/images/master/job-scheduler/api/routes/job_scheduler.py:43-47 | one publish; a failure becomes `Failed to send job to queue` |
| JobScheduler.Post | src/docker/images/master/job-scheduler/api/routes/job_scheduler.py:23-28 | exactly one publish of the request's YAML to the best region's queue; `({}, 201)` iff it returned |
| JobStatus.ValidateSchema | src/docker/images/master/job-scheduler/api/routes/job_status.py:20-28 | an error iff neither key is among the keys it is given, attached to both fields with the same message |
| JobStatus.ValidateLoaded | src/docker/images/master/job-scheduler/api/routes/job_status.py:17-28 | as written, the validator sees the loaded data, where both fields default to `None`, so it never rejects |
| JobStatus.MissingKeysNotRejected | src/docker/images/master/job-scheduler/api/routes/job_status.py:17-41 | a request with neither key passes the validator as written and is looked up by the name `None`; the intended validation rejects it |
| JobStatus.Field | src/docker/images/master/job-scheduler/api/routes/job_status.py:17-18 | a field is the given value, or None when absent |
| JobStatus.LookupFor | src/docker/images/master/job-scheduler/api/routes/job_status.py:37-42 | the lookup is by id iff the id is non-empty; otherwise by name |
| JobStatus.IdWins | src/docker/images/master/job-scheduler/api/routes/job_status.py:38-39 | a non-empty id wins over a name |
| JobStatus.EmptyIdUsesName | src/docker/images/master/job-scheduler/api/routes/job_status.py:38-41 | an empty id falls back to the name |
| JobStatus.StatusOf | src/docker/images/master/job-scheduler/api/routes/job_status.py:69-74 | the response has keys job_id, event and timestamp, taken from the row |
| JobStatus.GetJobStatusAsWritten | src/docker/images/master/job-scheduler/api/routes/job_status.py:50-76 | as written, every lookup fails with `Failed to get job status (<description>).` |
| JobStatus.GetJobStatus | src/docker/images/master/job-scheduler/api/routes/job_status.py:44-76 | intended: success iff the query returns exactly one row, answered with that row; otherwise the failure naming the lookup |
| JobStatus.Get | src/docker/images/master/job-scheduler/api/routes/job_status.py:36-42 | as intended: a request without either key is rejected; otherwise the looked-up status |
| JobStatus.KeywordMismatch | src/docker/images/master/job-scheduler/api/routes/job_status.py:53-57 | with one matching row the intended lookup answers it, while the lookup as written fails |
| JobStatus.TwoRowsFail | src/docker/images/master/job-scheduler/api/routes/job_status.py:68 | two matching rows are an error, even when they are equal |
| Util.GetDictValueOrDefault | src/docker/images/agent/executor/src/util.py:47-48 | the stored value when the key is present, the default when it is absent |
| Util.FalsyValuesKept | src/docker/images/agent/executor/src/util.py:47-48 | presence decides: a stored None or "" is returned, not the default |
| Util.OtherKeysIrrelevant | src/docker/images/agent/executor/src/util.py:47-48 | only the key read matters |
| Worker.BuildVolumeMounts | src/docker/images/agent/executor/src/worker.py:32-37 | the loop builds the mount list of the merged inputs and outputs |
| Worker.MountsOfShape | src/docker/images/agent/executor/src/worker.py:33-37 | the mounts are built iff every key has two characters, one per key in order |
| Worker.MountErrorPersists | src/docker/images/agent/executor/src/worker.py:33-37 | a failing key fails the whole list |
| Worker.MountpointKeysMustBePairs | src/docker/images/agent/executor/src/worker.py:33 | iterating the merged dict yields keys, so any mountpoint not two characters long fails the config |
| Worker.NoMountpointsNoMounts | src/docker/images/agent/executor/src/worker.py:32-38 | no inputs and no outputs give no volume mounts |
| Worker.CreateJobConfig | src/docker/images/agent/executor/src/worker.py:19-40 | the step-by-step updates compute the job config |
| Worker.NamedContents | src/docker/images/agent/executor/src/worker.py:25-27 | the container gets `<job_id>-container1`, the image and the command, nothing else changes |
| Worker.ResourcedContents | src/docker/images/agent/executor/src/worker.py:28-31 | the four resource fields come from the flat keys with defaults `1`, `256Mi`, `1`; the memory limit equals the memory request |
| Worker.FilledContents | src/docker/images/agent/executor/src/worker.py:25-38 | every field the container gets |
| Worker.JobConfigContents | src/docker/images/agent/executor/src/worker.py:21-40 | `metadata.name` is the job id, the first container is the filled one, and every other template path is unchanged |
| Worker.JobContainerFields | src/docker/images/agent/executor/src/worker.py:23-31 | the fields as read in the whole config, with the defaults for absent keys |
| Worker.SameReadsSameConfig | src/docker/images/agent/executor/src/worker.py:19-40 | the config depends on the message only through the keys it reads |
| Worker.NestedResourcesIgnored | src/docker/images/agent/executor/src/worker.py:28-31 | a nested `resources` mapping in the message is never read |
| Worker.SavedOnce | src/docker/images/agent/executor/src/worker.py:55-66 | a status is saved exactly once, last, for the message's job id; it is the status output iff the config was built and both commands succeeded |
| Shell.Quote | src/docker/images/agent/executor/src/util.py:32 | `shlex.quote`: the empty string becomes `''`, a non-empty string of `[\w@%+=:,./-]` characters stays as it is, any other string is put in apostrophes |
| Shell.EscapeApostrophes | src/docker/images/agent/executor/src/util.py:32 | a text without apostrophes is unchanged by the escaping `quote` applies |
| Shell.EscapeAppend | src/docker/images/agent/executor/src/util.py:32 | escaping works piece by piece: the escape of a concatenation is the concatenation of the escapes |
| Shell.QuoteOneApostrophe | src/docker/images/agent/executor/src/util.py:32 | `quote` of `a'b` is `'a'`, then `"'"`, then `'b'` |
| Shell.WordEnd | src/docker/images/agent/executor/src/util.py:32 | a plain argument of the non-POSIX split ends at the first whitespace |
| Shell.SplitSpace | src/docker/images/agent/executor/src/util.py:32 | the split skips whitespace between arguments |
| Shell.SplitWord | src/docker/images/agent/executor/src/util.py:32 | a word without whitespace or opening quote, then a space, is one argument |
| Shell.SplitQuoted | src/docker/images/agent/executor/src/util.py:32 | text from a quote character to the next equal one is one argument, the quotes kept in it |
| Shell.SplitApostrophesAlone | src/docker/images/agent/executor/src/util.py:32 | text in apostrophes on its own splits into itself, apostrophes included |
| Shell.SplitAfterWords | src/docker/images/agent/executor/src/util.py:32 | three words in front of a line add those three arguments in front of the line's |
| Shell.SplitQuotedApostrophe | src/docker/images/agent/executor/src/util.py:32 | the quoting of `a'b`, then an argument in apostrophes, splits into four arguments: `'a'`, `"'"`, `'b'` and the last one |
| Shell.SafeIsPlain | src/docker/images/agent/executor/src/util.py:32 | a string `quote` leaves alone holds no whitespace and no quote, so it is one word of the split |
| Worker.QuotedName | src/docker/images/agent/executor/src/worker.py:48 | `quote(job_name)` quotes a string; a falsy value of any type gives `''`; any other value raises |
| Worker.FlagQuoted | src/docker/images/agent/executor/src/worker.py:48-49 | `quote('-o=jsonpath={.status}')` puts the flag in apostrophes, because braces are not safe, so the text differs from the flag |
| Worker.StatusLineSplits | src/docker/images/agent/executor/src/util.py:32 | the status line splits into `kubectl`, `get`, `job`, then the arguments of the quoted name and the quoted flag |
| Worker.StatusCommandShapes | src/docker/images/agent/executor/src/worker.py:47-49 | the status query's arguments: a safe non-empty string id is passed as it is; a falsy id is passed as the two characters `''`; an id with an unsafe character and no apostrophe is passed in apostrophes; any other non-string id raises; the flag is passed in apostrophes every time |
| Worker.SafeNameStatus | src/docker/images/agent/executor/src/worker.py:47-49 | a safe non-empty string id gives `kubectl get job <id> '-o=jsonpath={.status}'` |
| Worker.QuotedNameStatus | src/docker/images/agent/executor/src/worker.py:47-49 | a name quoted into apostrophes is one argument before the quoted flag |
| Worker.ApostropheNameSplits | src/docker/images/agent/executor/src/worker.py:47-49 | an id `a'b` reaches `kubectl` as three arguments `'a'`, `"'"` and `'b'` |
| Worker.StatusQueriedByJobId | src/docker/images/agent/executor/src/worker.py:42-49 | after a successful create, the status query is issued iff quoting and splitting its line succeed, with the split arguments; a safe non-empty string id is the job name argument as it is |
| Worker.NamedJobLog | src/docker/images/agent/executor/src/worker.py:42-49 | `create_job` issues the create, then the status query with the split arguments of the config's quoted name; a name that cannot be quoted, or a line that cannot be split, raises after the create |
| Worker.NonStringIdNotQueried | src/docker/images/agent/executor/src/worker.py:42-49 | an integer job id is created but never queried; a safe non-empty string id is queried as it is, with the flag in apostrophes |
| Worker.Executor.RunCommand | src/docker/images/agent/executor/src/worker.py:45-49 | a command is logged and gives its output, or fails |
| Worker.Executor.CreateJobFor | src/docker/images/agent/executor/src/worker.py:42-49 | `create_job` logs the create and then, when the name can be quoted and the line split, the status query, and returns the query's output |
| Worker.Executor.SaveJobStatus | src/docker/images/agent/executor/src/worker.py:51-53 | saving is one logged event |
| Worker.Executor.HandleRequest | src/docker/images/agent/executor/src/worker.py:55-66 | a message without `job_id` is refused before anything is done; otherwise the events are the handling log |
| Dashboard.AddNumberJobs | src/docker/images/master/dashboard/routes/dashboard.py:169-176 | +1 for `Created`, -1 for `Completed` or `Failed`, 0 otherwise, each iff |
| Dashboard.ParseInt | src/docker/images/master/dashboard/routes/dashboard.py:179 | `int(...)` of an integer is itself; of digits, their value; of null, a list or a dict, an error |
| Dashboard.FractionalCpuRaises | src/docker/images/master/dashboard/routes/dashboard.py:179 | "500m" and "0.5" make the parse raise |
| Dashboard.CpuRequestIsGet | src/docker/images/master/dashboard/routes/dashboard.py:179 | the chain of eight subscripts reads the same value as the whole CPU-request path |
| Dashboard.AddNumberCores | src/docker/images/master/dashboard/routes/dashboard.py:178-186 | an error iff the CPU request does not parse, for every event; +n for `Created`, -n for `Completed`, 0 otherwise, `Failed` included |
| Dashboard.JobTotalCounts | src/docker/images/master/dashboard/routes/dashboard.py:124-128 | the job column sums to creations minus completions minus failures |
| Dashboard.CoreTotalCounts | src/docker/images/master/dashboard/routes/dashboard.py:124-136 | with n cores per job, the cores column sums to n times (creations minus completions) |
| Dashboard.CoreTotalSums | src/docker/images/master/dashboard/routes/dashboard.py:162-163 | the cores column is the sum of the rows' contributions |
| Dashboard.DeltaSumCounts | src/docker/images/master/dashboard/routes/dashboard.py:178-186 | the contributions add up to n per creation minus n per completion |
| Dashboard.CreatedThenFinished | src/docker/images/master/dashboard/routes/dashboard.py:169-186 | created then completed leaves both sums at 0; created then failed leaves the job sum at 0 and the cores sum at n |
| NodeInfoService.LoadNodesInfo | src/docker/images/cluster/node-info/src/main.py:15-26 | the loop builds the node table of the rows |
| NodeInfoService.ErrorPersists | src/docker/images/cluster/node-info/src/main.py:19-22 | a short row fails the whole load |
| NodeInfoService.LoadsIffRowsLongEnough | src/docker/images/cluster/node-info/src/main.py:19-22 | the load succeeds iff every row has at least three fields; the error is the index error |
| NodeInfoService.TableMembership | src/docker/images/cluster/node-info/src/main.py:23-25 | a node is in the table iff some row with three non-empty fields names it |
| NodeInfoService.TableEntry | src/docker/images/cluster/node-info/src/main.py:25 | a node's entry is that of the last such row naming it |
| NodeInfoService.LastRowWins | src/docker/images/cluster/node-info/src/main.py:25 | a later row for the same node overwrites an earlier one |
| NodeInfoService.StoredFieldsNonEmpty | src/docker/images/cluster/node-info/src/main.py:23-24 | stored names, regions and zones are non-empty |
| NodeInfoService.ExtraColumnsIgnored | src/docker/images/cluster/node-info/src/main.py:20-22 | fields after the third do not change the table |
| NodeInfoService.GetNodeInfo | src/docker/images/cluster/node-info/src/main.py:35-43 | `{region, zone}` for a known node, `{}` otherwise |
| NodeInfoService.GetNodeRegion | src/docker/images/cluster/node-info/src/main.py:46-51 | the region of a known node, None otherwise |
| NodeInfoService.GetNodeZone | src/docker/images/cluster/node-info/src/main.py:55-60 | the zone of a known node, None otherwise |
| NodeInfoService.LookupsAgree | src/docker/images/cluster/node-info/src/main.py:35-60 | the dict is empty iff the single lookups answer None, and otherwise holds what they answer |
| NodeInfoService.LookupsFromRows | src/docker/images/cluster/node-info/src/main.py:15-60 | a known node's lookups answer the fields of the last row naming it |
| NodeInfoService.UnknownNode | src/docker/images/cluster/node-info/src/main.py:36-60 | a name no kept row carries is unknown to all three lookups |

## Left out

- I/O is not modelled: reading files, stdin and environment variables, logging and `print`. Templates, tables, CSV rows and messages are parameters.
- The HTTP frameworks (Flask, FastAPI, marshmallow) are not modelled; their validation results are modelled as `Result` values.
- The clock, `sleep` and `RepeatTimer` are not modelled. A sleep is a log entry.
- Randomness is not modelled: random job and bucket names are parameters.
- Python's `\w` is modelled as ASCII letters, digits and underscore. Python matches Unicode word characters too.
- Unbounded `while True` polling is cut at the end of a finite list of answers; the outcome is then `StillWaiting`. Non-termination is not modelled.
- K8sHelper.GrownSize: computes `int(size * 1.2)` in exact integer arithmetic; floating-point rounding of the product is not modelled.
- `exist_pvc` is imported by the k8s helper but not defined in the source. It is an oracle of the cluster.
- NrpStorage: rclone's own commands, sizes and buckets are oracles. The endpoint returned by `create_bucket` is the constant `us-west`.
- K8sHelper.Substitute: a placeholder can come back through the values, so "no placeholder remains" does not hold in general. `PlaceholderCanReappear` gives the counterexample. `SubstitutionIsSimultaneous` proves the property under its conditions.
- `yaml.dump` is not modelled: the text published for a job request is a parameter (`dump`), and a config created with `kubectl` is logged as the document itself.
- JobRequest: `get_parsed_mountpoints` is not modelled. Nothing in the core calls it, and as written it unpacks dict keys.
- JobRequest: the latitude, longitude and `max_delay` range checks are not modelled; they are floating-point and timedelta field validators.
- JobRequest: the `original_location` one-of check is not modelled; it is a framework validator.
- JobRequest.S3UrlShape: requires that no region contains a colon. `Config.SplitNoColon` proves this for every region list read from the environment.
- JobStatus: the database connection is not modelled; it is an oracle from lookups to rows.
- JobStatus: the constructor passes `autocommit=True`, which the database helper's `get_db_connection()` does not accept. That would fail the resource before any request; it is left out, and only the lookup is modelled.
- Worker: when `job_id` is missing, building the assertion's message adds a string to a dict, so the executor stops with `TypeError` instead of `AssertionError`. That is modelled as refusing the message; the exception is not.
- Worker.Executor.HandleRequest: models `main` from the received message on. As written, `main` first calls `read_stdin`, which neither `worker.py` nor the executor's `util.py` defines, so it would raise `NameError` before handling any message.
- Worker.QuotedName: follows `shlex.quote`, which answers `''` for any falsy value before it looks at the type; the type of the exception raised for another non-string value is not modelled.
- Shell: `shlex.quote` and the non-POSIX `shlex.split` are modelled after Python's `shlex` module, which is not part of this model. Whitespace is space, tab, carriage return and newline. The split's comment and escape characters do not occur in the commands the executor builds and are not modelled.
- Kube: the storage CLI's `run_command` (`cli/storage/util.py`) splits in POSIX mode, which undoes `shlex.quote`, so its `kubectl` commands are modelled by the arguments they carry, such as the job name; only the executor splits in non-POSIX mode.
- Worker: what `kubectl` does with its arguments is the oracle's concern. The model states the exact argument vector. The flag reaches `kubectl` in apostrophes (`Worker.FlagQuoted`), so it is passed as a positional argument and not as the `-o` option.
- Worker.Executor.RunCommand: the constant command `kubectl create -f -` is the `CreateJob` command itself; its split into four words is not spelled out.
- Yaml.Value: has no floating-point case. A float in a message or a template is not modelled, so `Dashboard.ParseInt` does not model `int()` truncating a float such as `0.5`, and the executor does not model copying float values into the config.
- Kube.StatusOutput: a status output that is valid JSON but not an object (`null`, a list, a string) is not expressible. For such output, the membership tests on the status in `cli/storage/k8s_helper.py` raise `TypeError`, or test list or string membership.
- Yaml: YAML anchors and aliases are not modelled. `yaml.safe_load` shares one node between an anchor and its aliases, so an update through one path would show through the others; in the model each path is a value of its own, and `Yaml.Set` updates one path.
- Worker: a message that is not a mapping is not modelled.
- Worker: exception texts are abstracted as a `WorkerError` or `Reason` value, not as Python's message strings.
- Worker: f-string rendering of a non-string job id in the container name is abstracted. Lists and dicts render as a placeholder text instead of Python's `repr`. The status query does not use this rendering: it quotes the name, and a falsy non-string id becomes the two-character argument `''` while any other non-string id raises after the create (`Worker.QuotedName`).
- Worker.BuildVolumeMounts: modelled as written. The loop iterates the merged dict's keys, so each key is unpacked into its characters.
- Dashboard: pandas resampling by hour is not modelled. The running counts are sums over the rows in order.
- Dashboard.ParseInt: `int()` also accepts surrounding whitespace, `_` between digits, and non-ASCII decimal digits; those spellings are not modelled.
- K8sHelper.IsJobCompleted: the `Cannot parse job status` error omits the status dict that the source appends to the message, because Python's `repr` of a dict is not modelled.
- JobScheduler.CarbonAnswer: `total_emission` is modelled as an integer. The carbon API answers floating-point numbers, and `min` compares them as floats; the model chooses as the source does whenever the floats are replaced by integers in the same order.
- K8sHelper.Helper.constructor: the `kubectl version --short` check, which raises `kubectl not installed` when the command fails, is not modelled. The `rclone version` check of the rclone helper (`cli/storage/rclone_helper.py`) is not modelled either. Both are probes of the installed programs.

## Findings

| source | as written | input that shows it | evidently intended | confidence | as-written member | corrected member |
|---|---|---|---|---|---|---|
| src/docker/images/master/job-scheduler/api/routes/job_status.py:53-57 | both queries call `psql_execute_list(..., fetch_result=True)`, but the job scheduler's `api/helpers/postgres.py` defines `psql_execute_list(cursor, query, args=None)` with no such parameter, so every lookup raises `TypeError` and answers `Failed to get job status (...)` | any request, e.g. `job_id=abc` with one row for `abc` in the database | fetch the rows and answer the single row, as the executor's `postgres.py` helper does with its `fetch_result` parameter | high, not executed | JobStatus.GetJobStatusAsWritten (exhibit: JobStatus.KeywordMismatch) | JobStatus.GetJobStatus |
| src/docker/images/master/job-scheduler/api/routes/job_status.py:17-28 | both fields are declared with the default `None`, so the loaded data the `@validates_schema` validator receives always holds both keys, and `'job_id' not in data and 'job_name' not in data` is never true | a request with no query arguments, which is then looked up as `job_name=None` | reject a request that gives neither `job_id` nor `job_name` | medium, not executed; follows marshmallow's documented filling of load defaults before schema validators run | JobStatus.ValidateLoaded (exhibit: JobStatus.MissingKeysNotRejected) | JobStatus.Get |
