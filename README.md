# job-manager, modelled in Dafny

`kubectl job-manager` is a kubectl plugin that creates, lists and deletes
Kubernetes batch Jobs that use special hardware devices (one unit of a named
resource). It keeps a registry of managed device names in a configuration
file, one name per line, in `$HOME/.kube/job-manager.conf` or else
`/etc/kubernetes/job-manager.conf`. It lists the pods on the `tpm==true`
nodes, and the jobs, whose descriptions mention a registered device.

This project models the plugin's core:

- `main`: `flag.Parse` with its one flag, `-kubeconfig`, the client
  construction, `parseArguments` and the switch on the action;
- the four cluster-facing actions: `createJob`, `listDevices`, `listJobs`
  and `deleteJob`;
- the helpers in `utils.go`: registry lookup and loading, command rendering,
  and the dry-run YAML preview.

The cluster's answers, the clock and the file system are parameters.

- `Cli.Cluster` holds one invocation's environment: the home directory,
  whether a client can be built from a kubeconfig path (`connect`), the
  listings, the create and delete calls, and `now`.
- `Api.Fetch<T>` holds a list the API server returned, or its error message.
- The create and delete calls are functions from the request to the answer.
- `now` stands for `time.Now().Unix()`.
- `present`/`read` stand for `os.Stat` and `readLines`.

What the plugin prints is modelled as an `Output.Report`: a sequence of
`Output.Line`s and an exit status.

- 0 is success, including the flag package's usage for `-h`, `-help` and
  `--help`.
- 1 is a kubeconfig or client failure, a cluster error or an unknown action.
- 2 is a flag the flag package rejects, an unknown option, or a Go panic: a
  missing value, a bad number, a missing action, a nil start time in
  `listJobs`, or a dry run whose returned job has no containers
  (`go/utils.go:80-87`, `K8s.CreateReport`).

Modules and files:

| file | module | models |
|---|---|---|
| `wrappers.dfy` | `Wrappers` | `Option`, `Result` |
| `strconv.dfy` | `Strconv` | `fmt.Sprint` of integers, `strconv.ParseInt(s, 10, 32/64)`, Go's `int32(...)` wrap-around |
| `strings.dfy` | `Strings` | `strings.Split`, `strings.Join`, `strings.Contains`, newline-terminated documents |
| `api.dfy` | `Api` | the parts of Node, Pod, Job and the create/delete options the plugin reads or writes |
| `output.dfy` | `Output` | printed lines and exit statuses |
| `params.dfy` | `Params` | the `Parameters` record and its defaults (`go/main.go:17-55`) |
| `utils.dfy` | `Utils` | `go/utils.go` |
| `k8s.dfy` | `K8s` | `go/k8s.go` |
| `cli.dfy` | `Cli` | `parseArguments` and `main`'s switch in `go/main.go` |

The loops and the printing steps of the source are methods, the loops with
loop invariants, each proved equal to a specification function:

- `Utils.IsElementExist`, `Utils.ParseCommand` and `Utils.PrintJobYaml`;
- `Cli.ScanOptions`;
- `K8s.MatchRows`, `K8s.PodRows`, `K8s.ListNodes`, `K8s.ListJobItems` and
  `K8s.CreateJob`.

The properties are lemmas about those functions.

## Edge cases the code decides

- **Empty registry file.** `readLines` only allocates its slice when it
  appends the first line, so an empty file yields a nil slice
  (`go/utils.go:30-35`). The plugin then behaves exactly as if no file
  existed: listings show help and creation shows help
  (`Utils.LoadManagedDevices`).
- **Partial listings.** `listDevices` prints rows as it goes, so the header
  and the rows of earlier nodes stay printed before a later node's
  pod-list error ends the run (`go/k8s.go:34-40`, `K8s.NodesReport`). The
  rows printed before `listJobs` panics on a job without a start time stay
  printed too (`go/k8s.go:72-82`, `K8s.JobsReport`).
- **Missing-registry warning on create.** The guard at `go/k8s.go:106`
  already shows help when `p.config == nil`, so the warning at
  `go/k8s.go:111-115` is never printed (`K8s.CreateWarnings`).
- **Help spellings.** `flag.Parse` (`go/main.go:66`) sees `-h`, `-help` and
  `--help` first and prints the flag usage, so the switch's `"--help"` and
  `"-h"` case (`go/main.go:106`) is reached by neither
  (`Cli.HelpFlagsShowUsage`). A first argument made of one or two dashes
  and a name other than `kubeconfig`, `help` or `h`, such as `-j` or `-j=5`,
  is a flag the flag package does not define and exits 2
  (`Cli.UndefinedFlagFirst`, `Cli.OptionsAreUndefinedFlags`). A lone `-` or
  `--` is no flag: it becomes the action, which `main` does not know, so the
  run shows help and exits 1 (`Cli.DashActionFirst`).

## Model

| member | source | states |
|---|---|---|
| Strconv.DecimalRoundTrip | go/utils.go:72-75 | a number printed by `fmt.Sprint` reads back by `strconv.ParseInt` at any width it fits |
| Strconv.ParseInt | go/main.go:156-159 | an accepted value is an optional sign and digits inside the signed range of the bit size, and a numeral reads as exactly its value when that is in range and as an error otherwise |
| Strconv.ParseIntExamples | go/main.go:156 | `+5` and `007` read as 5 and 7, `-0` as 0; the empty string, a lone sign and `1x` are errors |
| Strconv.Wrap32 | go/main.go:169 | `int32(v)` lies in the int32 range, agrees with `v` modulo 2^32 and is `v` when `v` fits |
| Strconv.ParseIntNarrow | go/main.go:165-169 | at 32 bits ParseInt accepts exactly the 64-bit values that fit in 32 bits |
| Strings.Split | go/main.go:146 | `strings.Split` gives at least one piece, none containing the separator |
| Strings.JoinSplit | go/main.go:146 | joining the pieces of a split with the separator gives the original string |
| Strings.SplitJoin | go/main.go:146 | splitting a join gives back the parts when none contains the separator |
| Strings.ContainsIff | go/k8s.go:47 | `strings.Contains(s, sub)` holds exactly when `sub` occurs at some position of `s` |
| Strings.LinesOfUnlines | go/utils.go:64-90 | a document of newline-free lines splits at its newlines into those lines and an empty tail |
| Params.Defaults | go/main.go:37-55 | the request before parsing: empty strings, no command, deadline 7200, TTL after finished 0, parallelism, completions and backoff limit 1, OnFailure, IfNotPresent, no dry run, no help, and the loaded registry |
| Utils.IsElementExist | go/utils.go:12-19 | the loop returns true exactly when the string is an element of the slice |
| Utils.ParseCommand | go/utils.go:93-101 | the loop renders `[` then each word in quotes with `, ` between consecutive words, then `]` |
| Utils.CommandListLength | go/utils.go:93-101 | the rendered length is 2 plus each word with its quotes plus 2 per separator |
| Utils.CommandListExamples | go/utils.go:93-101 | no words render as `[]`; `echo Hello!` renders as `["echo", "Hello!"]` |
| Utils.FindConfigLocation | go/utils.go:52-62 | the user file when it exists, else the system file when it exists, else `""` |
| Utils.LoadManagedDevices | go/utils.go:23-49 | the registry is absent exactly when no file is found, reading fails or the file is empty; otherwise it is the file's lines |
| Utils.PrintJobYaml | go/utils.go:64-91 | the appended text equals the 24-line preview document of the returned job and the device |
| Utils.AppendMetadata | go/utils.go:66-70 | appends the version, kind and metadata lines |
| Utils.AppendSpec | go/utils.go:71-75 | appends the spec line and the four job-level numbers |
| Utils.AppendTemplate | go/utils.go:76-81 | appends the template, container name, image and rendered command lines |
| Utils.AppendResources | go/utils.go:82-86 | appends one unit of the device as request and as limit |
| Utils.AppendTail | go/utils.go:87-89 | appends the pull policy, restart policy and backoff limit lines |
| Utils.JobYamlSections | go/utils.go:64-89 | the preview is its five sections, one after the other |
| Utils.PreviewMetadataReadsBack | go/utils.go:66-70 | the preview has 24 lines, and lines 3 and 4 carry the job's name and namespace |
| Utils.PreviewNumbersReadBack | go/utils.go:72-75 | the deadline, TTL after finished, parallelism, completions and backoff limit lines read back as the job's numbers |
| Utils.PreviewContainerReadsBack | go/utils.go:79-88 | the container lines carry the job name, image, rendered command, pull policy and restart policy |
| Utils.PreviewResourcesReadBack | go/utils.go:82-86 | the request and the limit are each `<device>: 1` |
| Utils.PreviewLinesNewlineFree | go/utils.go:64-89 | no preview line holds a newline when the job's strings and the device hold none |
| K8s.SamplePreview | go/utils.go:64-91 | the preview of the documented dry run is the 24 lines with every default in place (deadline 7200, TTL after finished 0, parallelism, completions and backoff limit 1, IfNotPresent, OnFailure) |
| Utils.PreviewReadsBack | go/utils.go:64-90 | the printed document splits into exactly its 24 lines plus an empty tail, and the fields read back from it |
| K8s.TimeToLive | go/k8s.go:73-93 | the time-to-live cell is undefined (a panic) exactly when a running job with a deadline has no start time |
| K8s.TimeToLiveCountsDown | go/k8s.go:73-93 | seconds left while the expiry lies ahead, `Terminating...` from then on, `NoTimeoutSet` exactly without a timeout |
| K8s.NoTimeoutSetWhateverTheTime | go/k8s.go:76-87 | whether a job has no timeout, or panics, does not depend on the clock |
| K8s.TimeToLiveExamples | go/k8s.go:76-93 | a completed job shows `1` one second before expiry and `Terminating...` at it; a mismatched timeout shows `NoTimeoutSet` |
| K8s.RemainingTime | go/k8s.go:73-93 | the branch panics exactly on a missing start time, else its text is the time to live |
| K8s.MatchRows | go/k8s.go:46-50 | the registry loop prints one row per entry the description contains, in registry order |
| K8s.MatchesRows | go/k8s.go:46-50 | a line is a row of an item exactly when it names a registry entry the description contains |
| K8s.CorrelateRows | go/k8s.go:43-50 | a row is printed exactly when some listed item's description contains that registry entry |
| K8s.CorrelateAppend | go/k8s.go:43-50 | correlating two runs of items prints the rows of the first, then those of the second |
| K8s.MatchingExamples | go/k8s.go:47 | matching is by substring: `dev-a` matches a description mentioning `dev-ab`; a duplicate entry prints twice |
| K8s.FirstPodFailure | go/k8s.go:34-40 | the first node whose pod listing failed, and every earlier node's listing succeeded |
| K8s.PodRows | go/k8s.go:43-51 | the pods loop prints the rows of each pod in turn |
| K8s.ListNodes | go/k8s.go:34-52 | the nodes loop prints the rows of each node's pods up to the first pod-list error, then exits 1 |
| K8s.ListDevices | go/k8s.go:17-53 | `listDevices` prints help, or the header, the node-list error, or the rows of the nodes' pods |
| K8s.NodeItemsArePods | go/k8s.go:34-44 | the listed items are exactly the pods of each node, shown under that node |
| K8s.DeviceRows | go/k8s.go:17-53 | a complete listing exits 0 and shows device, node, namespace, pod exactly when that pod on that node mentions that registry entry |
| K8s.ListingHelp | go/k8s.go:18-21 | with help asked or no registry both listings print list help only |
| K8s.FirstMissingStart | go/k8s.go:72-82 | the first job whose start time is read while nil, and no earlier job lacks it |
| K8s.ListJobItems | go/k8s.go:72-102 | the jobs loop prints each job's rows with its time to live, up to the first panic |
| K8s.ListJobs | go/k8s.go:55-103 | `listJobs` prints help, or the header, the job-list error, or the rows of the jobs |
| K8s.JobRows | go/k8s.go:55-103 | a complete listing exits 0 and shows device, job, namespace, TTL exactly when that job mentions that entry and has that time to live |
| K8s.CreateJob | go/k8s.go:105-174 | `createJob` prints what its guard, warnings, cluster answer and outcome dictate |
| K8s.CreateHelpExactly | go/k8s.go:106-109 | create help is shown, without calling the cluster, exactly when help is asked, the registry is absent, or a required field is missing |
| K8s.CreateWarnings | go/k8s.go:111-121 | the missing-registry warning is never printed; the unmanaged-device warning is printed exactly when the device is not registered |
| K8s.JobDescriptor | go/k8s.go:124-158 | the job is named after the request in its namespace, with one container named after the job running the command |
| K8s.DescriptorShape | go/k8s.go:124-163 | the job has one container named after the job with the image and command, one unit of the device as request and limit; the deadline, TTL after finished, parallelism, completions, backoff limit, restart policy and pull policy are the request's; `DryRun` is `["All"]` exactly for a dry run |
| K8s.CreateReport | go/k8s.go:105-174 | create help for an incomplete request; otherwise the warnings, then exactly one more line, with exit 0, 1 or 2 |
| K8s.SampleDryRun | go/k8s.go:105-174 | the documented dry run with the device registered prints no warning and no `created` line, only the preview document, and exits 0 |
| K8s.CreateOutcome | go/k8s.go:165-173 | exit 1 exactly when the call fails; otherwise `job.batch/<name> created`, or for a dry run the preview of the returned job |
| K8s.PlanDelete | go/k8s.go:176-185 | delete help exactly when help is asked or the job or namespace is empty; otherwise the removal of that job in that namespace |
| K8s.DeleteReport | go/k8s.go:176-190 | one line; exit 1 exactly when a removal was attempted and failed, else 0 |
| K8s.DeleteOutcome | go/k8s.go:176-190 | delete help exactly when help is asked or the job or namespace is empty; otherwise background propagation, zero grace, exit 0 exactly when the call succeeds |
| Cli.Spellings | go/main.go:127-201 | short and long spellings select the same case; any other token selects none |
| Cli.SetValue | go/main.go:128-193 | one case of the switch writes the option's field, or fails on a bad number |
| Cli.ScanOptions | go/main.go:126-204 | the loop's request is the settings of the options from the cursor applied in order, or the first error |
| Cli.ParseArguments | go/main.go:116-205 | `parseArguments` reads the action, the subaction for `list`, then the options |
| Cli.ScanStep | go/main.go:126-204 | scanning is the option at the cursor, then the rest with its setting applied |
| Cli.LastOccurrenceWins | go/main.go:126-204 | each field holds what the last option writing it wrote, or its earlier value |
| Cli.FieldsNoOptionWrites | go/main.go:126-204 | no option writes action, subaction, parallelism, pull policy or registry; only `--debug` writes the restart policy, to Never |
| Cli.RestartPolicyFollowsDebug | go/main.go:184-193 | the restart policy is Never exactly when some `--debug` was given |
| Cli.ParseAppendOption | go/main.go:126-204 | appending a value option to a parsing command line applies that option last, or yields its error |
| Cli.RepeatedJobOverrides | go/main.go:128-132 | a repeated `--job` replaces the job name and nothing else |
| Cli.ParsedFields | go/main.go:116-205 | the action is token 1, the subaction token 2 for `list`, and every other field is its last writer's value or the default |
| Cli.ParseActionOnly | go/main.go:116-124 | an action alone leaves the defaults; no action fails |
| Cli.DebugOption | go/main.go:184-193 | `--debug v` stores `int32(v)` and sets Never, or fails when `v` is not a 64-bit number |
| Cli.ParseDebugExample | go/main.go:184-193 | `--debug 600` gives TTL after finished 600 and restart policy Never |
| Cli.ParseDebugWraps | go/main.go:187-191 | `--debug 4294967297` stores 1 |
| Cli.ParseAppendFlag | go/main.go:180-203 | appending a flag to a command line that parses applies that flag last |
| Cli.CommandOption | go/main.go:143-147 | `-c v` stores `v` split at single spaces, and joining the words gives `v` back |
| Cli.CommandSplitExample | go/main.go:146 | `echo Hello!` splits into the words `echo` and `Hello!` |
| Cli.CreateTargetLine | go/main.go:128-137 | `create -j J -n N` sets the job and the namespace over the defaults |
| Cli.CreateDeviceLine | go/main.go:128-152 | `create -j J -n N -d D` sets those three fields over the defaults |
| Cli.CreateContainerLine | go/main.go:128-152 | `create -j J -n N -d D -i I` sets those four fields over the defaults |
| Cli.CreateCommandLine | go/main.go:126-152 | adding `-c C` also sets the command to C split at spaces |
| Cli.CreateDryRunCommandLine | go/main.go:126-183 | adding `--dry-run` also sets the dry run |
| Cli.SampleCommandLine | go/main.go:116-205 | the documented dry-run command line parses into the documented request |
| Cli.ParseUnknownExample | go/main.go:198-201 | an unknown option stops parsing |
| Cli.ParseBadNumberExample | go/main.go:153-159 | a non-numeric `--ttl` stops parsing |
| Cli.ParseOverflowExample | go/main.go:162-168 | a `--completions` value beyond int32 stops parsing |
| Cli.ParseMissingValueExample | go/main.go:128-131 | an option without its value stops parsing |
| Cli.Dispatch | go/main.go:86-113 | help-and-fail exactly for an unknown action; a list outcome exactly for `list` |
| Cli.DispatchRules | go/main.go:86-113 | the subaction only matters for `list`; the help spellings show help; any unknown action shows help and fails |
| Cli.Perform | go/main.go:86-113 | list help, version, configuration and help exit 0; an unknown action exits 1; delete exits 0 or 1; every outcome exits 0, 1 or 2 |
| Cli.Proceed | go/main.go:83-113 | a command line that does not parse prints the parse failure and exits 2; otherwise the action runs; the exit is 0, 1 or 2 |
| Cli.Run | go/main.go:57-113 | the flag usage exits 0, a flag error exits 2 with the usage, a client failure exits 1, and otherwise parsing and the switch run; the exit is always 0, 1 or 2 |
| Cli.Invoke | go/main.go:57-113 | the invocation's steps give exactly what `Cli.Run` states |
| Cli.PerformAction | go/main.go:86-113 | the switch on the action runs the matching action's report |
| Cli.ParseFailureExits | go/main.go:116-205 | once the flags parse and the client is built, a command line that does not parse exits 2 whatever the cluster would answer |
| Cli.NoFlagsFirst | go/main.go:60-83 | a first argument that is not a flag leaves the default kubeconfig, and with the client built the run is parsing and the switch |
| Cli.HelpFlagsShowUsage | go/main.go:66-107 | `-h`, `-help` and `--help` first ask the flag package for its usage |
| Cli.UndefinedFlagFirst | go/main.go:60-66 | a first argument of one or two dashes and a name whose part before any `=` is not `kubeconfig`, `help` or `h` is a flag error naming that part |
| Cli.InlineUndefinedExample | go/main.go:60-66 | `-j=5` first is the same error as `-j`: the flag `-j` is not defined |
| Cli.DashActionFirst | go/main.go:66-113 | a lone `-` or `--` first sets no flag and becomes the action; once the rest parses, the run shows help and exits 1 |
| Cli.OptionsAreUndefinedFlags | go/main.go:60-66 | every option spelling of the switch that starts with a dash, other than the help ones, is an undefined flag |
| Cli.KubeconfigFlagFirst | go/main.go:60-66 | `-kubeconfig p` first sets the kubeconfig path to p |
| Cli.KubeconfigFirst | go/main.go:116-201 | after `-kubeconfig p` is used by the flag package, `-kubeconfig` is taken as the action and p as an unknown option, exiting 2 |
| Cli.SampleRun | go/main.go:57-113 | the documented dry run, with the client built, the device registered and the job accepted, prints only the preview and exits 0 |

## Left out

- `flag.Parse` is modelled with `-kubeconfig` as its only flag and Go's handling of `-h`/`-help` (exit 0); the usage text is one opaque line.
- Cli.KubeconfigPath: `filepath.Join` cleaning of the home directory path is not modelled; the path is `home + "/.kube/config"`.
- Building the client from the kubeconfig (`go/main.go:69-80`) is the `connect` function of `Cli.Cluster`: the model sees only whether it fails and its message.
- Help, usage and configuration texts (`printHelp`, `printListHelp`, `printCreateHelp`, `PrintDeleteHelp`, `printConfig`) are opaque lines: go/help.go is not part of this model.
- Column widths and padding of `%60.60s | %-30.30s | ...` are not modelled: a row is its four cells.
- `fmt.Sprint(pod)` and `fmt.Sprint(job)` are opaque descriptor strings from the API; only substring search on them is modelled.
- Each warning is one line; the source prints two warning lines and a `---` separator.
- Panic and `strconv` error messages are approximations of Go's text; the exit status 2 is exact.
- K8s.TimeToLive: the time arithmetic is on unbounded integers, so int64 overflow for extreme timestamps is not modelled.
- The clock is one `now` for the whole listing, where the source reads `time.Now()` once per job.
- `readLines` and `os.Stat` are the functions `read` and `present`; scanner errors after some lines are a failed read.
- Utils.PrintJobYaml: each constant line is appended with its `"\n"` as a separate concatenation, and the appends are grouped into one method per section.
- Utils.ParseCommand: words containing quotes or backslashes are not escaped, as in the source; the model does not claim the output is valid YAML.
- Concurrency and the real network calls are left out.
