/** The profile handling and the shell launch of src/aws.rs: normalising the
    section names of the AWS configuration file, ordering the profile names
    offered to the operator, choosing and looking up a profile, deciding
    whether the external login helper runs, and building the command line
    that opens the shell in the container. */
module Aws {
  import opened Wrappers
  import opened Text
  import opened Ordering
  import opened Helpers

  /** The two fields of a configuration section the program reads. */
  datatype Credential = Credential(azureTenantId: Option<string>, credentialProcess: Option<string>)

  const ProfilePrefix: string := "profile "

  /** One leading "profile " is removed from a section name; any other name is kept. */
  function NormalizeKey(key: string): (k: string)
    ensures StartsWith(key, ProfilePrefix) ==> ProfilePrefix + k == key
    ensures !StartsWith(key, ProfilePrefix) ==> k == key
  {
    if StartsWith(key, ProfilePrefix) then key[|ProfilePrefix|..] else key
  }

  /** Exactly one prefix is stripped, whatever follows it. */
  lemma StripsExactlyOnePrefix(name: string)
    ensures NormalizeKey(ProfilePrefix + name) == name
  {
  }

  lemma NormalizeKeyExamples()
    ensures NormalizeKey("profile staging") == "staging"
    ensures NormalizeKey("profile profile x") == "profile x"
    ensures NormalizeKey("default") == "default"
  {
  }

  ghost function NormalizedKeys(raw: set<string>): set<string> {
    set k | k in raw :: NormalizeKey(k)
  }

  /** No other raw section name normalises to the same profile name as `key`. */
  ghost predicate Unshared(raw: set<string>, key: string) {
    forall other :: other in raw && NormalizeKey(other) == NormalizeKey(key) ==> other == key
  }

  /** The renaming step of `get_aws_config_sections`: the parsed map is
      traversed in the hash map's unspecified order and every section is
      inserted under its normalised name. When two raw names collide, the
      one inserted last survives; the order, and so the survivor, is not
      determined, which the model renders by picking each next section
      arbitrarily. */
  method NormalizeSections(raw: map<string, Credential>) returns (m: map<string, Credential>)
    ensures m.Keys == NormalizedKeys(raw.Keys)
    ensures forall k :: k in m ==> exists r :: r in raw && NormalizeKey(r) == k && raw[r] == m[k]
    ensures forall r :: r in raw && Unshared(raw.Keys, r) ==> NormalizeKey(r) in m && m[NormalizeKey(r)] == raw[r]
  {
    m := map[];
    var todo := raw.Keys;
    while todo != {}
      invariant todo <= raw.Keys
      invariant m.Keys == NormalizedKeys(raw.Keys - todo)
      invariant forall k :: k in m ==> exists r :: r in raw && r !in todo && NormalizeKey(r) == k && raw[r] == m[k]
      invariant forall r :: r in raw && r !in todo && Unshared(raw.Keys, r) ==> NormalizeKey(r) in m && m[NormalizeKey(r)] == raw[r]
      decreases |todo|
    {
      var key :| key in todo;
      m := m[NormalizeKey(key) := raw[key]];
      todo := todo - {key};
    }
  }

  /** The names of a map in the hash map's unspecified order, each once. */
  method KeysOf(m: map<string, Credential>) returns (keys: seq<string>)
    ensures multiset(keys) == multiset(m.Keys)
  {
    keys := [];
    var todo := m.Keys;
    while todo != {}
      invariant todo <= m.Keys
      invariant multiset(keys) + multiset(todo) == multiset(m.Keys)
      decreases |todo|
    {
      var key :| key in todo;
      assert multiset(todo) == multiset(todo - {key}) + multiset{key};
      keys := keys + [key];
      todo := todo - {key};
    }
  }

  /** What the operator is offered: "default" first and exactly once, then
      every other name, sorted. */
  ghost predicate IsProfileListing(names: seq<string>, keys: multiset<string>) {
    && |names| > 0
    && names[0] == "default"
    && "default" !in names[1..]
    && Sorted(names[1..])
    && multiset(names[1..]) == keys["default" := 0]
  }

  /** The listing of a set of profile names is determined by the set. */
  lemma {:induction false} ListingUnique(a: seq<string>, b: seq<string>, keys: multiset<string>)
    requires IsProfileListing(a, keys) && IsProfileListing(b, keys)
    ensures a == b
  {
    SortedUnique(a[1..], b[1..]);
    assert a == [a[0]] + a[1..] && b == [b[0]] + b[1..];
  }

  /** The profile-name list of `aws_login`: the names are sorted, "default"
      is removed wherever it sorts, and "default" is put in front. */
  method OrderedProfileNames(keys: seq<string>) returns (names: seq<string>)
    ensures IsProfileListing(names, multiset(keys))
  {
    names := SortNames(keys);
    SortNamesSortedPermutation(keys);
    var kept: seq<string> := [];
    var i := 0;
    while i < |names|
      invariant 0 <= i <= |names|
      invariant kept == Without(names[..i], "default")
    {
      assert names[..i + 1][..i] == names[..i];
      if names[i] != "default" {
        kept := kept + [names[i]];
      }
      i := i + 1;
    }
    assert names[..i] == names;
    WithoutCounts(names, "default");
    WithoutSorted(names, "default");
    names := ["default"] + kept;
    assert names[1..] == kept;
  }

  /** Some enumeration of a set, each element once. */
  ghost function Enumerate(s: set<string>): (r: seq<string>)
    ensures multiset(r) == multiset(s)
    decreases |s|
  {
    if s == {} then []
    else
      var x :| x in s;
      assert multiset(s) == multiset(s - {x}) + multiset{x};
      [x] + Enumerate(s - {x})
  }

  /** The list offered for a set of profile names. */
  ghost function ProfileListing(keys: set<string>): (names: seq<string>)
    ensures IsProfileListing(names, multiset(keys))
  {
    var sorted := SortNames(Enumerate(keys));
    SortNamesSortedPermutation(Enumerate(keys));
    WithoutCounts(sorted, "default");
    WithoutSorted(sorted, "default");
    var names := ["default"] + Without(sorted, "default");
    assert names[1..] == Without(sorted, "default");
    names
  }

  /** The ordering of the example profiles "default", "zeta" and "alpha". */
  lemma ProfileListingExample()
    ensures ProfileListing({"default", "zeta", "alpha"}) == ["default", "alpha", "zeta"]
  {
    var keys := {"default", "zeta", "alpha"};
    var expected := ["default", "alpha", "zeta"];
    assert Below("alpha", "zeta");
    assert expected[1..] == ["alpha", "zeta"];
    assert multiset(keys)["default" := 0] == multiset{"alpha", "zeta"};
    assert IsProfileListing(expected, multiset(keys));
    ListingUnique(ProfileListing(keys), expected, multiset(keys));
  }

  /** The profile name `aws_login` goes on with: an explicit profile as given,
      with no matching against the known names; otherwise the operator's
      choice among `names`. */
  function ChooseProfile(profile: Option<string>, names: seq<string>, prompt: Prompt): (r: Result<string>)
    requires ValidPrompt(prompt)
    ensures profile.Some? ==> r == Ok(profile.value)
    ensures profile.None? ==> r == SelectItem("Account", names, prompt).WithContext("Could not list AWS profiles")
    ensures profile.None? && r.Ok? ==> r.value in names
  {
    match profile
    case Some(p) => Ok(p)
    case None => SelectItem("Account", names, prompt).WithContext("Could not list AWS profiles")
  }

  /** A profile needs the external login helper when it names a tenant and
      has no credential process of its own. */
  predicate NeedsExternalLogin(c: Credential) {
    c.azureTenantId.Some? && c.credentialProcess.None?
  }

  /** How a child process went: it could not be spawned, or it ran and
      exited successfully or not. */
  datatype ProcessRun = Exited(success: bool) | SpawnFailed(error: Error)

  /** The settings the SDK configuration is loaded with: the profile name
      and, when given, a region that overrides the profile's default. */
  datatype SdkConfig = SdkConfig(profileName: string, region: Option<string>)

  function LoginFailedMessage(name: string): string {
    "Failed to log into AWS with profile: " + name
  }

  function MissingProfileMessage(name: string): string {
    "AWS profile does not exist: " + name
  }

  /** `aws_login`. `sections` is the outcome of `get_aws_config_sections`,
      `prompt` answers the profile picker and `login` is how the
      `aws-azure-login` child would go. Besides the outcome, `helper` is the
      argument list the login helper is run with, or None when it is not run. */
  method AwsLogin(profile: Option<string>, region: Option<string>, sections: Result<map<string, Credential>>,
                  prompt: Prompt, login: ProcessRun)
    returns (helper: Option<seq<string>>, r: Result<(string, SdkConfig)>)
    requires ValidPrompt(prompt)
    ensures sections.Err? ==> helper == None && r == Err(sections.error)
    ensures sections.Ok? ==>
      var profiles := sections.value;
      var chosen := ChooseProfile(profile, ProfileListing(profiles.Keys), prompt);
      && (chosen.Err? ==> helper == None && r == Err(chosen.error))
      && (chosen.Ok? && chosen.value !in profiles ==>
            helper == None && r == Err(Message(MissingProfileMessage(chosen.value))))
      && (chosen.Ok? && chosen.value in profiles ==>
            && (helper.Some? <==> NeedsExternalLogin(profiles[chosen.value]))
            && (helper.Some? ==> helper.value == ["--profile", chosen.value])
            && (r.Ok? <==> helper.None? || login == Exited(true))
            && (helper.Some? && login.SpawnFailed? ==> r == Err(login.error))
            && (helper.Some? && login == Exited(false) ==> r == Err(Message(LoginFailedMessage(chosen.value))))
            && (r.Ok? ==> r.value == (chosen.value, SdkConfig(chosen.value, region))))
  {
    if sections.Err? {
      return None, Err(sections.error);
    }
    var profiles := sections.value;
    var keys := KeysOf(profiles);
    var names := OrderedProfileNames(keys);
    ListingUnique(names, ProfileListing(profiles.Keys), multiset(profiles.Keys));

    var chosen := ChooseProfile(profile, names, prompt);
    if chosen.Err? {
      return None, Err(chosen.error);
    }
    var name := chosen.value;
    if name !in profiles {
      return None, Err(Message(MissingProfileMessage(name)));
    }

    helper := None;
    if NeedsExternalLogin(profiles[name]) {
      helper := Some(["--profile", name]);
      match login
      case SpawnFailed(e) =>
        return helper, Err(e);
      case Exited(success) =>
        if !success {
          return helper, Err(Message(LoginFailedMessage(name)));
        }
    }

    var config := SdkConfig(name, None);
    if region.Some? {
      config := config.(region := region);
    }
    r := Ok((name, config));
  }

  /** The shell started in the container: an explicit entry point as given,
      otherwise PowerShell on a Windows platform and bash everywhere else. */
  function EntryPoint(entry: Option<string>, platform: string): (e: string)
    ensures entry.Some? ==> e == entry.value
    ensures entry.None? ==> (e == "powershell.exe" <==> Contains(Lower(platform), "windows"))
    ensures entry.None? ==> (e == "/bin/bash" <==> !Contains(Lower(platform), "windows"))
  {
    match entry
    case Some(e) => e
    case None => if Contains(Lower(platform), "windows") then "powershell.exe" else "/bin/bash"
  }

  lemma EntryPointExamples()
    ensures EntryPoint(None, "WINDOWS_SERVER_2019_FULL") == "powershell.exe"
    ensures EntryPoint(None, "LINUX") == "/bin/bash"
    ensures EntryPoint(Some("/bin/sh"), "WINDOWS_SERVER_2019_FULL") == "/bin/sh"
  {
    assert Lower("WINDOWS_SERVER_2019_FULL")[..7] == "windows";
    assert StartsWith(Lower("WINDOWS_SERVER_2019_FULL"), "windows");
    assert Lower("LINUX") == "linux";
    if Contains("linux", "windows") {
      ContainedCharacters("linux", "windows", 0);
      assert false;
    }
  }

  /** `interactive_container_shell`: the arguments the `aws` program is run
      with (standard streams inherited), and the outcome, which depends only
      on whether the child could be spawned and not on its exit status. */
  method InteractiveContainerShell(profile: string, region: Option<string>, cluster: string, task: string,
                                   entry: Option<string>, platform: string, run: ProcessRun)
    returns (argv: seq<string>, r: Result<()>)
    ensures |argv| >= 11
    ensures argv[..11] == ["ecs", "execute-command", "--cluster", cluster, "--task", task,
                           "--interactive", "--command", EntryPoint(entry, platform), "--profile", profile]
    ensures region.None? ==> |argv| == 11
    ensures region.Some? ==> argv[11..] == ["--region", region.value]
    ensures r.Ok? <==> run.Exited?
    ensures run.SpawnFailed? ==> r == Err(run.error)
  {
    var shell := EntryPoint(entry, platform);
    argv := ["ecs", "execute-command", "--cluster", cluster, "--task", task,
             "--interactive", "--command", shell, "--profile", profile];
    if region.Some? {
      argv := argv + ["--region", region.value];
    }
    match run
    case SpawnFailed(e) => r := Err(e);
    case Exited(_) => r := Ok(());
  }
}
