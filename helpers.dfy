/** The generic item resolver and the cascade steps of src/helpers.rs.
    Every step picks one string out of a candidate list, either by a hint
    (first candidate that contains it) or, without a hint, by a terminal
    prompt that the model treats as an oracle. */
module Helpers {
  import opened Wrappers
  import opened Text

  /** What the fuzzy-select prompt answers: the index the operator picked, or
      the error the prompt failed with (input closed, aborted, ...). */
  datatype Answer = Picked(index: nat) | Failed(error: Error)

  /** The interactive prompt, given its title and the items it shows. */
  type Prompt = (string, seq<string>) -> Answer

  ghost predicate InRange(answer: Answer, items: seq<string>) {
    answer.Picked? ==> answer.index < |items|
  }

  /** The prompt library's own promise: a picked index always designates one
      of the items shown. On an empty list it can therefore only fail. */
  ghost predicate ValidPrompt(prompt: Prompt) {
    forall title, items :: InRange(prompt(title, items), items)
  }

  /** `select_item`: a one-element list is answered without prompting;
      any other list is shown to the operator and the picked item returned. */
  function SelectItem(title: string, items: seq<string>, prompt: Prompt): (r: Result<string>)
    requires ValidPrompt(prompt)
    ensures |items| == 1 ==> r == Ok(items[0])
    ensures |items| != 1 && prompt(title, items).Picked? ==> r == Ok(items[prompt(title, items).index])
    ensures |items| != 1 && prompt(title, items).Failed? ==> r == Err(prompt(title, items).error)
    ensures |items| == 0 ==> r.Err?
    ensures r.Ok? ==> r.value in items
  {
    if |items| == 1 then
      Ok(items[0])
    else
      match prompt(title, items)
      case Picked(i) => assert InRange(prompt(title, items), items); Ok(items[i])
      case Failed(e) => Err(e)
  }

  /** No candidate before position `k` contains `needle`. */
  ghost predicate NoneBefore(items: seq<string>, needle: string, k: int) {
    forall j :: 0 <= j < k && j < |items| ==> !Contains(items[j], needle)
  }

  /** Position of the first candidate containing `needle`, in list order
      (the `find` over the candidates' iterator). */
  function FirstMatch(items: seq<string>, needle: string): (r: Option<nat>)
    ensures r.Some? ==> r.value < |items| && Contains(items[r.value], needle)
    ensures r.Some? ==> NoneBefore(items, needle, r.value)
    ensures r.None? ==> NoneBefore(items, needle, |items|)
  {
    if items == [] then None
    else if Contains(items[0], needle) then Some(0)
    else
      match FirstMatch(items[1..], needle)
      case None => None
      case Some(i) => Some(i + 1)
  }

  function NotFoundMessage(name: string, needle: string): string {
    "Could not find " + Lower(name) + ": " + needle
  }

  function SelectContext(name: string): string {
    "Error selecting " + Lower(name) + "s"
  }

  /** `find_item`: resolve one candidate of kind `name` from an optional hint. */
  function FindItem(name: string, needle: Option<string>, items: seq<string>, prompt: Prompt): (r: Result<string>)
    requires ValidPrompt(prompt)
    ensures needle.Some? ==> (r.Ok? <==> exists i :: 0 <= i < |items| && Contains(items[i], needle.value))
    ensures needle.Some? && r.Ok? ==>
      exists i :: 0 <= i < |items| && r.value == items[i] && Contains(items[i], needle.value)
                  && NoneBefore(items, needle.value, i)
    ensures needle.Some? && r.Err? ==> r.error == Message(NotFoundMessage(name, needle.value))
    ensures needle.None? ==> r == SelectItem(name, items, prompt).WithContext(SelectContext(name))
    ensures r.Ok? ==> r.value in items
  {
    match needle
    case Some(v) =>
      (match FirstMatch(items, v)
       case Some(i) => Ok(items[i])
       case None => Err(Message(NotFoundMessage(name, v))))
    case None =>
      SelectItem(name, items, prompt).WithContext(SelectContext(name))
  }

  /** With a hint the prompt is never consulted: any two prompts give the same outcome. */
  lemma HintIgnoresPrompt(name: string, needle: string, items: seq<string>, p: Prompt, q: Prompt)
    requires ValidPrompt(p) && ValidPrompt(q)
    ensures FindItem(name, Some(needle), items, p) == FindItem(name, Some(needle), items, q)
  {
  }

  /** A one-element list without a hint is resolved without the prompt. */
  lemma SingletonIgnoresPrompt(name: string, item: string, p: Prompt, q: Prompt)
    requires ValidPrompt(p) && ValidPrompt(q)
    ensures FindItem(name, None, [item], p) == FindItem(name, None, [item], q) == Ok(item)
  {
  }

  /** The empty hint is contained in every candidate, so it selects the first one;
      on an empty list it fails as "not found". */
  lemma EmptyHintTakesFirst(name: string, items: seq<string>, prompt: Prompt)
    requires ValidPrompt(prompt)
    ensures |items| > 0 ==> FindItem(name, Some(""), items, prompt) == Ok(items[0])
    ensures |items| == 0 ==> FindItem(name, Some(""), items, prompt) == Err(Message(NotFoundMessage(name, "")))
  {
  }

  /** The reply of a listing call of the cloud SDK: the call itself may fail,
      and a successful reply may still lack the list of identifiers. */
  type Listing = Result<Option<seq<string>>>

  /** The shared shape of `get_cluster`, `get_service` and `get_task`:
      a failed call is passed on, a missing list is reported with `missing`,
      and a present list goes to `FindItem`. */
  function ResolveListed(listing: Listing, missing: string, name: string, needle: Option<string>, prompt: Prompt): (r: Result<string>)
    requires ValidPrompt(prompt)
    ensures listing.Err? ==> r == Err(listing.error)
    ensures listing == Ok(None) ==> r == Err(Message(missing))
    ensures listing.Ok? && listing.value.Some? ==> r == FindItem(name, needle, listing.value.value, prompt)
    ensures r.Ok? ==> listing.Ok? && listing.value.Some? && r.value in listing.value.value
  {
    match listing
    case Err(e) => Err(e)
    case Ok(None) => Err(Message(missing))
    case Ok(Some(items)) => FindItem(name, needle, items, prompt)
  }

  /** `get_cluster`: `clusters` is the reply of the unscoped cluster listing. */
  function GetCluster(clusters: Listing, needle: Option<string>, prompt: Prompt): (r: Result<string>)
    requires ValidPrompt(prompt)
    ensures clusters.Err? ==> r == Err(clusters.error)
    ensures clusters == Ok(None) ==> r == Err(Message("Could not list clusters"))
    ensures clusters.Ok? && clusters.value.Some? ==> r == FindItem("Cluster", needle, clusters.value.value, prompt)
  {
    ResolveListed(clusters, "Could not list clusters", "Cluster", needle, prompt)
  }

  /** `get_service`: `services` is the reply of the service listing scoped to
      the cluster already resolved. */
  function GetService(services: Listing, needle: Option<string>, prompt: Prompt): (r: Result<string>)
    requires ValidPrompt(prompt)
    ensures services.Err? ==> r == Err(services.error)
    ensures services == Ok(None) ==> r == Err(Message("Could not list services"))
    ensures services.Ok? && services.value.Some? ==> r == FindItem("Service", needle, services.value.value, prompt)
  {
    ResolveListed(services, "Could not list services", "Service", needle, prompt)
  }

  /** `get_task`: `tasks` is the reply of the task listing scoped to the
      resolved cluster and service. */
  function GetTask(tasks: Listing, needle: Option<string>, prompt: Prompt): (r: Result<string>)
    requires ValidPrompt(prompt)
    ensures tasks.Err? ==> r == Err(tasks.error)
    ensures tasks == Ok(None) ==> r == Err(Message("Could not list tasks"))
    ensures tasks.Ok? && tasks.value.Some? ==> r == FindItem("Task", needle, tasks.value.value, prompt)
  {
    ResolveListed(tasks, "Could not list tasks", "Task", needle, prompt)
  }

  /** `get_task_os`: `described` is the reply of the task description call,
      one optional platform family per described task. Only the first task
      is looked at. */
  function GetTaskOs(described: Result<seq<Option<string>>>): (r: Result<string>)
    ensures described.Err? ==> r == Err(described.error)
    ensures described.Ok? ==> (r.Ok? <==> |described.value| > 0 && described.value[0].Some?)
    ensures r.Ok? ==> r.value == described.value[0].value
    ensures described.Ok? && r.Err? ==> r.error == Message("No task data found")
  {
    match described
    case Err(e) => Err(e)
    case Ok(tasks) =>
      if |tasks| > 0 && tasks[0].Some? then Ok(tasks[0].value)
      else Err(Message("No task data found"))
  }

  /** Tasks after the first never influence the platform lookup. */
  lemma PlatformOfFirstTaskOnly(first: Option<string>, rest: seq<Option<string>>, other: seq<Option<string>>)
    ensures GetTaskOs(Ok([first] + rest)) == GetTaskOs(Ok([first] + other))
  {
  }

  /** A cluster hint matching several clusters selects the first listed one,
      without prompting: "prod" against ["prod-east", "prod-west"]. */
  lemma FirstOfSeveralMatches(prompt: Prompt)
    requires ValidPrompt(prompt)
    ensures GetCluster(Ok(Some(["prod-east", "prod-west"])), Some("prod"), prompt) == Ok("prod-east")
  {
  }

  /** A hint that no cluster contains is reported with the lower-cased kind and the hint. */
  lemma UnmatchedHintMessage(prompt: Prompt)
    requires ValidPrompt(prompt)
    ensures GetCluster(Ok(Some(["prod-east"])), Some("dev"), prompt) == Err(Message("Could not find cluster: dev"))
  {
    if Contains("prod-east", "dev") {
      ContainedCharacters("prod-east", "dev", 2);
      assert false;
    }
    assert FirstMatch(["prod-east"], "dev") == None;
    assert Lower("Cluster") == "cluster";
  }
}
