# ecs-ssm decision logic, modelled in Dafny

`ecs-ssm` is a small command-line tool. It picks an AWS profile, an ECS
cluster, a service and a task, then runs `aws ecs execute-command` to open an
interactive shell in the container. This project models the tool's decision
logic and proves properties of it:

- the generic item resolver: a hint selects the first candidate that contains
  it, a single candidate is taken without asking, and otherwise the operator
  picks from a prompt;
- the three cascade steps (cluster, service, task) built on that resolver,
  and the platform lookup of the resolved task;
- normalisation of the section names of `~/.aws/config`;
- the ordering of the profile names offered to the operator, the choice and
  lookup of the profile, and the rule that decides whether the
  `aws-azure-login` helper runs;
- the default shell entry point and the exact argument list of the
  `aws ecs execute-command` call.

Everything outside that logic enters the model as a value:

- A reply of the cloud SDK is a `Result` holding an optional list, or a list
  of optional platform families.
- The fuzzy-select prompt is an oracle (`Helpers.Prompt`). It maps the prompt
  title and the items to a picked index or a failure.
- A child process run is a `ProcessRun`: the spawn failed, or the child exited
  with or without success.
- The configuration file is the already-parsed map of raw section names to
  credentials.

Errors follow the three shapes of the `anyhow` crate the program uses
(`Wrappers.Error`): a plain message, a message wrapping another error as
context, and an error raised outside the model that is passed on unchanged.

Files: `wrappers.dfy` (Option, Result, Error), `text.dfy` (containment,
lower-casing), `ordering.dfy` (string order, the sort and `retain`),
`helpers.dfy` (src/helpers.rs), `aws.dfy` (src/aws.rs).

Behaviour of the code worth noting:

- The shell launch ignores the child's exit status. It succeeds whenever the
  child could be spawned (src/aws.rs:118-120).
- When two raw section names normalise to the same name, the survivor is
  whichever the hash map yields last, and that order is unspecified. The model
  leaves the survivor undetermined and proves that the value comes from one of the colliding sections.
- With no hint and an empty candidate list, the code still calls the prompt
  library. It does not fail by itself. The model fails there only because a
  valid prompt cannot pick an index in an empty list.
- "AWS profile does not exist" is reported whenever the chosen name is not a
  profile. This includes an explicit `--profile` that names no profile,
  because the explicit name is used verbatim.

## Model

| member | source | states |
|---|---|---|
| `Text.ContainsOccurrence` | src/helpers.rs:96 | the containment test used for hints (`str::contains`) holds exactly when some window of the candidate spells the hint |
| `Helpers.SelectItem` | src/helpers.rs:75-86 | a one-element list returns its element without the prompt; any other list returns the item at the prompt's index, or the prompt's error unchanged; an empty list always fails; a success is always an element of the list |
| `Helpers.FirstMatch` | src/helpers.rs:93-96 | finds the first position, in list order, whose candidate contains the hint; no earlier candidate contains it; None only when no candidate contains it |
| `Helpers.FindItem` | src/helpers.rs:88-102 | with a hint: succeeds iff some candidate contains it, returning the first such candidate in list order; otherwise fails with "Could not find <lower-cased name>: <hint>"; without a hint: the outcome of `SelectItem`, with a failure wrapped in "Error selecting <lower-cased name>s"; every success is an element of the list |
| `Helpers.HintIgnoresPrompt` | src/helpers.rs:93-97 | with a hint, any two prompts give the same outcome, so the prompt is never consulted, even when several candidates match |
| `Helpers.SingletonIgnoresPrompt` | src/helpers.rs:76-77 | a one-element list without a hint yields its element whatever the prompt |
| `Helpers.EmptyHintTakesFirst` | src/helpers.rs:93-97 | the empty hint selects the first candidate of a non-empty list, and on an empty list fails as not found |
| `Helpers.ResolveListed` | src/helpers.rs:9-16 | a failed listing call is passed on unchanged; a reply without a list fails with the step's message; otherwise the outcome is `FindItem` over the list, and a success is one of the listed identifiers |
| `Helpers.GetCluster` | src/helpers.rs:5-17 | SDK failure passed on; a missing list fails with "Could not list clusters"; otherwise `FindItem("Cluster", hint, list)` |
| `Helpers.GetService` | src/helpers.rs:19-33 | SDK failure passed on; a missing list fails with "Could not list services"; otherwise `FindItem("Service", hint, list)` |
| `Helpers.GetTask` | src/helpers.rs:35-51 | SDK failure passed on; a missing list fails with "Could not list tasks"; otherwise `FindItem("Task", hint, list)` |
| `Helpers.GetTaskOs` | src/helpers.rs:54-73 | succeeds iff there is a first described task and it has a platform family, returning that family; otherwise fails with "No task data found"; an SDK failure is passed on |
| `Helpers.PlatformOfFirstTaskOnly` | src/helpers.rs:66-72 | tasks after the first never change the platform lookup |
| `Helpers.FirstOfSeveralMatches` | src/helpers.rs:93-97 | the hint "prod" against clusters ["prod-east", "prod-west"] selects "prod-east" whatever the prompt |
| `Helpers.UnmatchedHintMessage` | src/helpers.rs:96-97 | the hint "dev" against ["prod-east"] fails with exactly "Could not find cluster: dev" |
| `Ordering.BelowTotal` | src/aws.rs:39 | any two names are comparable in the sort order |
| `Ordering.BelowTransitive` | src/aws.rs:39 | the sort order is transitive |
| `Ordering.BelowAntisymmetric` | src/aws.rs:39 | names below each other are equal |
| `Ordering.SortNamesSortedPermutation` | src/aws.rs:39 | sorting yields a sorted permutation of the names |
| `Ordering.SortedUnique` | src/aws.rs:39 | two sorted permutations of the same names are identical, so the sorted list does not depend on the hash map's key order |
| `Ordering.WithoutCounts` | src/aws.rs:40 | `retain` removes every occurrence of the name and keeps every other name as often as before |
| `Ordering.WithoutSorted` | src/aws.rs:40 | `retain` keeps a sorted list sorted |
| `Aws.NormalizeKey` | src/aws.rs:24 | a key starting with "profile " is that prefix followed by the result; any other key is returned unchanged |
| `Aws.StripsExactlyOnePrefix` | src/aws.rs:24 | exactly one prefix is removed: "profile " followed by any name normalises to that name, even a name that itself starts with "profile " |
| `Aws.NormalizeKeyExamples` | src/aws.rs:24 | "profile staging" becomes "staging", "profile profile x" becomes "profile x", "default" is kept |
| `Aws.NormalizeSections` | src/aws.rs:20-28 | the key set is the image of the raw keys under normalisation; every value is the value of some raw section with that normalised name; a section whose normalised name no other section shares keeps its value |
| `Aws.KeysOf` | src/aws.rs:38 | the collected names are exactly the map's keys, each once, in an unspecified order |
| `Aws.OrderedProfileNames` | src/aws.rs:38-41 | the list starts with "default", contains it nowhere else, and continues with all other names, sorted, each as often as in the input, whether or not a "default" profile exists |
| `Aws.ListingUnique` | src/aws.rs:38-41 | the offered list is determined by the set of profile names |
| `Aws.ProfileListing` | src/aws.rs:38-41 | the list offered for a set of profile names has the shape `OrderedProfileNames` promises |
| `Aws.ProfileListingExample` | src/aws.rs:38-41 | profiles {"default", "zeta", "alpha"} are offered as ["default", "alpha", "zeta"] |
| `Aws.ChooseProfile` | src/aws.rs:43-49 | an explicit profile is used verbatim, with no matching; without one, the operator's choice from the offered list, a failure wrapped in "Could not list AWS profiles"; without an explicit profile, a chosen name is one of the offered names |
| `Aws.AwsLogin` | src/aws.rs:33-76 | a configuration failure is passed on; a chosen name that is not a profile fails with "AWS profile does not exist: <name>"; the login helper runs, with ["--profile", name], exactly when the profile has a tenant id and no credential process; a spawn failure of the helper is passed on and an unsuccessful exit fails with "Failed to log into AWS with profile: <name>"; on success the returned name is the chosen name and the SDK is configured with it and with the region override |
| `Aws.EntryPoint` | src/aws.rs:86-92 | an explicit entry point is returned unchanged; otherwise "powershell.exe" iff the lower-cased platform contains "windows", and "/bin/bash" iff it does not |
| `Aws.EntryPointExamples` | src/aws.rs:86-92 | "WINDOWS_SERVER_2019_FULL" selects "powershell.exe", "LINUX" selects "/bin/bash", and an explicit entry overrides both |
| `Aws.InteractiveContainerShell` | src/aws.rs:78-121 | the arguments are exactly ecs, execute-command, --cluster, cluster, --task, task, --interactive, --command, entry point, --profile, profile, followed by --region and the region iff a region is given, and nothing else; the outcome is success iff the child was spawned, whatever its exit status, and a spawn failure is passed on |

## Left out

- src/main.rs is not part of this model. It parses the command line and calls the steps in order, each step receiving the values resolved by the one before. The model's step functions take the SDK replies for the resolved cluster, service and task as inputs instead.
- The AWS SDK calls (`list_clusters`, `list_services`, `list_tasks`, `describe_tasks`) are network clients. Their replies are inputs: `Helpers.Listing`, and a list of optional platform families.
- `aws_config` loading is foreign library state. `Aws.SdkConfig` records only the profile name and the region override it is loaded with.
- Reading `~/.aws/config` (home-directory lookup, file reading, `serde_ini` parsing) is I/O and a foreign parser. `Aws.NormalizeSections` starts from the parsed map. `Aws.AwsLogin` receives the outcome of `get_aws_config_sections` as a `Result`, so its I/O errors are passed on unchanged.
- The `dialoguer` fuzzy-select prompt is an oracle. `Helpers.ValidPrompt` assumes the library's promise that a picked index lies within the shown list, so `items[selected_index]` never panics in the model. How the library behaves on an empty list is not modelled beyond that.
- Spawning `aws-azure-login` (run with its output captured, src/aws.rs:56-58) and `aws` (run with the terminal's standard streams inherited, src/aws.rs:96-99) are processes outside the model. The model returns the argument lists they would run with, and takes their outcome as a `ProcessRun`.
- `str::to_lowercase` is modelled for ASCII letters only (`Text.Lower`). Non-ASCII case mappings are not captured.
- `Ordering.SortNames` stands for `slice::sort` as insertion sort. Any two sorts agree (`Ordering.SortedUnique`). `Ordering.Below` is Rust's `String` order, because UTF-8 byte order equals code-point order.
- Error messages are modelled as the `anyhow` structure (message, context, foreign error), not as rendered text. The foreign errors' own texts are opaque.
