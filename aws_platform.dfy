/**
 * The Git side of promotion and resource binding (`AwsAppsPlatformApi`):
 * locating the application's repository among the hosting API's search hits,
 * building the multi-file commits that trigger the deployment pipeline, and
 * turning the API's answer into a `{status, message}` outcome.
 *
 * Nothing here talks to the network: the search hits, the HTTP status and
 * body of each call, and the role ARN read from the parameter store are inputs.
 */
module AwsPlatform {
  import opened Wrappers
  import opened Text
  import opened Properties
  import opened AppsCommon

  // ---------------------------------------------------------------------------
  // Project lookup
  // ---------------------------------------------------------------------------

  /** One element of the `GET /projects?search=<repo>` answer. */
  datatype SearchHit = SearchHit(pathWithNamespace: string, id: string)

  /** The path an exact match must carry: `<group>/<repo>`. */
  function ProjectPath(group: string, repo: string): string {
    group + "/" + repo
  }

  /** Hit `i` is the first hit whose path is exactly `path`. */
  predicate IsFirstMatch(hits: seq<SearchHit>, path: string, i: int) {
    0 <= i < |hits| && hits[i].pathWithNamespace == path &&
    forall j :: 0 <= j < i ==> hits[j].pathWithNamespace != path
  }

  /** The index that `filter(exact path)[0]` picks, if any. */
  function FirstExactMatch(hits: seq<SearchHit>, path: string): (r: Option<nat>)
    ensures r.Some? ==> IsFirstMatch(hits, path, r.value)
    ensures r.None? <==> forall j :: 0 <= j < |hits| ==> hits[j].pathWithNamespace != path
  {
    if hits == [] then None
    else if hits[0].pathWithNamespace == path then Some(0)
    else match FirstExactMatch(hits[1..], path)
      case None => None
      case Some(i) => Some(i + 1)
  }

  function ProjectNotFoundMessage(group: string, repo: string): string {
    "Failed to get git project ID for group '" + group + "' and repo '" + repo + "'"
  }

  /**
   * `getGitProjectId`: the id of the first hit whose path is exactly
   * `<group>/<repo>`; an error when there is no such hit or its id is empty.
   */
  function GetGitProjectId(hits: seq<SearchHit>, group: string, repo: string): (r: Result<string, string>)
    ensures r.Ok? ==> (r.value != "" &&
      exists i :: IsFirstMatch(hits, ProjectPath(group, repo), i) && hits[i].id == r.value)
    ensures r.Err? ==> (r.error == ProjectNotFoundMessage(group, repo) &&
      forall i :: IsFirstMatch(hits, ProjectPath(group, repo), i) ==> hits[i].id == "")
  {
    match FirstExactMatch(hits, ProjectPath(group, repo))
    case None => Err(ProjectNotFoundMessage(group, repo))
    case Some(i) =>
      if hits[i].id != "" then Ok(hits[i].id) else Err(ProjectNotFoundMessage(group, repo))
  }

  /** An index moved one place on when it is at or after `k`. */
  function ShiftPast(r: Option<nat>, k: nat): Option<nat> {
    match r
    case None => None
    case Some(i) => Some(if i < k then i else i + 1)
  }

  /** The lookup over a hit followed by more hits, one step unfolded. */
  lemma FirstExactMatchCons(h: SearchHit, rest: seq<SearchHit>, path: string)
    ensures FirstExactMatch([h] + rest, path) ==
      if h.pathWithNamespace == path then Some(0) else ShiftPast(FirstExactMatch(rest, path), 0)
  {
    assert ([h] + rest)[0] == h && ([h] + rest)[1..] == rest;
  }

  /**
   * Inserting a hit that is not an exact match at position `k` moves the
   * chosen index past it, if the index was at or after `k`, and changes nothing else.
   */
  lemma {:induction false} FirstExactMatchShift(hits: seq<SearchHit>, other: SearchHit, k: nat, path: string)
    requires k <= |hits| && other.pathWithNamespace != path
    ensures FirstExactMatch(hits[..k] + [other] + hits[k..], path) == ShiftPast(FirstExactMatch(hits, path), k)
  {
    if k == 0 {
      assert hits[..k] + [other] + hits[k..] == [other] + hits;
      FirstExactMatchCons(other, hits, path);
    } else {
      var tail := hits[1..];
      var inserted := tail[..k - 1] + [other] + tail[k - 1..];
      assert hits == [hits[0]] + tail;
      assert hits[..k] + [other] + hits[k..] == [hits[0]] + inserted;
      FirstExactMatchCons(hits[0], inserted, path);
      FirstExactMatchCons(hits[0], tail, path);
      if hits[0].pathWithNamespace != path {
        FirstExactMatchShift(tail, other, k - 1, path);
      }
    }
  }

  /** A hit that is not an exact match is never chosen, wherever it is placed. */
  lemma LookupIgnoresInexactHits(hits: seq<SearchHit>, other: SearchHit, k: nat, group: string, repo: string)
    requires k <= |hits| && other.pathWithNamespace != ProjectPath(group, repo)
    ensures GetGitProjectId(hits[..k] + [other] + hits[k..], group, repo) == GetGitProjectId(hits, group, repo)
  {
    var all := hits[..k] + [other] + hits[k..];
    FirstExactMatchShift(hits, other, k, ProjectPath(group, repo));
    match FirstExactMatch(hits, ProjectPath(group, repo))
    case None =>
    case Some(i) => assert all[if i < k then i else i + 1] == hits[i];
  }

  // ---------------------------------------------------------------------------
  // Commits and outcomes
  // ---------------------------------------------------------------------------

  datatype Verb = Create | Delete

  /** One `{action, file_path, content}` element of a commit. */
  datatype CommitAction = CommitAction(action: Verb, filePath: string, content: string)

  datatype Commit = Commit(branch: string, commitMessage: string, actions: seq<CommitAction>)

  /** A commit posted to `/projects/<projectId>/repository/commits`. */
  datatype Post = Post(projectId: string, commit: Commit)

  /** The hosting API's answer: the HTTP status and the body's `message`, if any. */
  datatype HttpResponse = HttpResponse(status: int, message: Option<string>)

  /** What one operation did: the commit it posted, if it got that far, and what it reported. */
  datatype Run = Run(posted: Option<Post>, outcome: Outcome)

  datatype Operation = Promotion | Binding | Unbinding

  const Branch := "main"
  const CicdHint := "Check the CICD pipeline for the most up-to-date information. UI status may take a few minutes to update."
  const DuplicateFileText := "A file with this name already exists"

  /** The SUCCESS message: the commit only triggers the pipeline. */
  function PendingMessage(op: Operation): string {
    (match op
     case Promotion => "Promotion"
     case Binding => "Binding"
     case Unbinding => "UnBinding")
    + " will not be complete until deployment succeeds. " + CicdHint
  }

  /** The message for a commit that collides with one already made. */
  function ScheduledMessage(op: Operation, envName: string): string {
    envName + " has already been scheduled for " +
    (match op
     case Promotion => "promotion"
     case Binding => "binding"
     case Unbinding => "unbinding")
    + ". " + CicdHint
  }

  /**
   * The outcome of a commit POST. Statuses up to 299 succeed; above that the
   * outcome is FAILURE, with the "already scheduled" message when the body
   * reports a file that already exists, and the body's message otherwise.
   */
  function Classify(op: Operation, envName: string, response: HttpResponse): (r: Outcome)
    ensures r.status == Success <==> response.status <= 299
    ensures response.status <= 299 ==> r.message == PendingMessage(op)
    ensures response.status > 299 && response.message.Some? &&
            ContainsText(response.message.value, DuplicateFileText) ==>
              r.message == ScheduledMessage(op, envName)
    ensures response.status > 299 &&
            !(response.message.Some? && ContainsText(response.message.value, DuplicateFileText)) ==>
              r.message == response.message.GetOr("")
  {
    IncludesIsContainment(response.message.GetOr(""), DuplicateFileText);
    if response.status > 299 then
      if response.message.Some? && Includes(response.message.value, DuplicateFileText) then
        Outcome(Failure, ScheduledMessage(op, envName))
      else
        Outcome(Failure, response.message.GetOr(""))
    else
      Outcome(Success, PendingMessage(op))
  }

  /** Reported when the project lookup fails; nothing is committed then. */
  function LookupFailure(repo: string): Outcome {
    Outcome(Failure, "Failed to retrieve Git project ID for " + repo)
  }

  // ---------------------------------------------------------------------------
  // Promotion
  // ---------------------------------------------------------------------------

  function PropertiesPath(envName: string, providerName: string): string {
    ".awsdeployment/providers/" + envName + "-" + providerName + ".properties"
  }

  function RegistryImage(account: string, region: string, appName: string, providerName: string): string {
    account + ".dkr.ecr." + region + ".amazonaws.com/" + appName + "-" + providerName
  }

  const HeaderKeys: seq<string> := [
    "ACCOUNT", "REGION", "ENV_NAME", "PREFIX", "ENV_PROVIDER_NAME", "ENV_ROLE_ARN",
    "AAD_CI_ENVIRONMENT", "AAD_CI_ENVIRONMENT_MANUAL_APPROVAL", "AAD_CI_REGISTRY_IMAGE"]

  /** The nine fixed entries that open every provider's property file. */
  function HeaderEntries(input: AppPromoParams, p: ProviderRecord, roleArn: string): seq<Entry> {
    [ Entry("ACCOUNT", p.awsAccount),
      Entry("REGION", p.awsRegion),
      Entry("ENV_NAME", p.environmentName),
      Entry("PREFIX", p.prefix),
      Entry("ENV_PROVIDER_NAME", p.providerName),
      Entry("ENV_ROLE_ARN", roleArn),
      Entry("AAD_CI_ENVIRONMENT", p.environmentName + "-" + p.providerName),
      Entry("AAD_CI_ENVIRONMENT_MANUAL_APPROVAL", BoolText(input.envRequiresManualApproval)),
      Entry("AAD_CI_REGISTRY_IMAGE", RegistryImage(p.awsAccount, p.awsRegion, input.appName, p.providerName)) ]
  }

  /** The property file of one provider: the fixed entries, then its parameters in key order. */
  function PropertiesFile(input: AppPromoParams, p: ProviderRecord, roleArn: string): string {
    Render(HeaderEntries(input, p, roleArn) + p.parameters)
  }

  /**
   * Builds the property file text as the source does: the nine fixed lines
   * (one template literal in the source), then one `key=value` line appended
   * per parameter key.
   */
  method BuildPropertiesContent(input: AppPromoParams, p: ProviderRecord, roleArn: string)
    returns (propsContent: string)
    ensures propsContent == PropertiesFile(input, p, roleArn)
  {
    var header := HeaderEntries(input, p, roleArn);
    propsContent := Render(header);
    assert header + p.parameters[..0] == header;
    for k := 0 to |p.parameters|
      invariant propsContent == Render(header + p.parameters[..k])
    {
      var e := p.parameters[k];
      propsContent := propsContent + e.key + "=" + e.value + "\n";
      assert header + p.parameters[..k + 1] == (header + p.parameters[..k]) + [e];
      RenderSnoc(header + p.parameters[..k], e);
    }
    assert p.parameters[..|p.parameters|] == p.parameters;
  }

  /** The fields that end up as values in a property file carry no newline. */
  predicate PlainFields(input: AppPromoParams, p: ProviderRecord, roleArn: string) {
    '\n' !in input.appName && '\n' !in p.awsAccount && '\n' !in p.awsRegion &&
    '\n' !in p.environmentName && '\n' !in p.prefix && '\n' !in p.providerName && '\n' !in roleArn
  }

  lemma HeaderKeysPlain()
    ensures forall i :: 0 <= i < 9 ==> '=' !in HeaderKeys[i] && '\n' !in HeaderKeys[i]
  {
    forall i | 0 <= i < 9 ensures '=' !in HeaderKeys[i] && '\n' !in HeaderKeys[i] {
      KeyPlain(HeaderKeys[i]);
    }
  }

  /** A key made of capital letters and underscores has no `=` or newline. */
  lemma KeyPlain(key: string)
    requires forall k :: 0 <= k < |key| ==> 'A' <= key[k] <= 'Z' || key[k] == '_'
    ensures '=' !in key && '\n' !in key
  {
  }

  lemma HeaderValuesPlain(input: AppPromoParams, p: ProviderRecord, roleArn: string)
    requires PlainFields(input, p, roleArn)
    ensures forall i :: 0 <= i < 9 ==> '\n' !in HeaderEntries(input, p, roleArn)[i].value
  {
    assert '\n' !in p.environmentName + "-" + p.providerName;
    assert '\n' !in BoolText(input.envRequiresManualApproval);
    assert '\n' !in RegistryImage(p.awsAccount, p.awsRegion, input.appName, p.providerName);
  }

  lemma HeaderWellFormed(input: AppPromoParams, p: ProviderRecord, roleArn: string)
    requires PlainFields(input, p, roleArn)
    ensures forall i :: 0 <= i < 9 ==> WellFormed(HeaderEntries(input, p, roleArn)[i])
  {
    var h := HeaderEntries(input, p, roleArn);
    HeaderKeysPlain();
    HeaderValuesPlain(input, p, roleArn);
    assert forall i :: 0 <= i < 9 ==> h[i].key == HeaderKeys[i];
  }

  /**
   * Reading the property file back with `Parse` gives exactly the nine fixed
   * entries, in order, followed by the provider's parameters.
   */
  lemma PropertiesFileReadsBack(input: AppPromoParams, p: ProviderRecord, roleArn: string)
    requires PlainFields(input, p, roleArn)
    requires forall i :: 0 <= i < |p.parameters| ==> WellFormed(p.parameters[i])
    ensures var es := Parse(PropertiesFile(input, p, roleArn));
      |es| == 9 + |p.parameters| &&
      (forall i :: 0 <= i < 9 ==> es[i].key == HeaderKeys[i]) &&
      es[..9] == HeaderEntries(input, p, roleArn) &&
      es[9..] == p.parameters
  {
    var h := HeaderEntries(input, p, roleArn);
    var all := h + p.parameters;
    HeaderWellFormed(input, p, roleArn);
    forall i | 0 <= i < |all| ensures WellFormed(all[i]) {
      if i >= 9 {
        assert all[i] == p.parameters[i - 9];
      } else {
        assert all[i] == h[i];
      }
    }
    ParseRender(all);
    assert all[..9] == h;
    assert all[9..] == p.parameters;
  }

  /** One `create` action per provider, at the provider's property-file path. */
  function PromotionAction(input: AppPromoParams, p: ProviderRecord, roleArn: string): CommitAction {
    CommitAction(Create, PropertiesPath(input.envName, p.providerName), PropertiesFile(input, p, roleArn))
  }

  /**
   * The actions of the promotion commit, one per provider in provider order.
   * `roleArnOf` is the parameter-store lookup of a provider's role name,
   * already rendered as the template literal renders it.
   */
  function PromotionActions(input: AppPromoParams, roleArnOf: string -> string): (r: seq<CommitAction>)
    ensures |r| == |input.providers|
    ensures forall i :: 0 <= i < |r| ==>
      r[i].action == Create &&
      r[i].filePath == PropertiesPath(input.envName, input.providers[i].providerName) &&
      r[i].content == PropertiesFile(input, input.providers[i], roleArnOf(input.providers[i].assumedRoleArn))
  {
    var ps := input.providers;
    var r := seq(|ps|, i requires 0 <= i < |ps| => PromotionAction(input, ps[i], roleArnOf(ps[i].assumedRoleArn)));
    assert forall i :: 0 <= i < |r| ==> r[i] == PromotionAction(input, ps[i], roleArnOf(ps[i].assumedRoleArn));
    r
  }

  /** A middle part framed by the same prefix and suffix is determined by the whole. */
  lemma FramedInjective(a: string, x: string, y: string, b: string)
    requires a + x + b == a + y + b
    ensures x == y
  {
    var s := a + x + b;
    assert |x| == |y|;
    assert x == s[|a|..|a| + |x|];
    assert y == (a + y + b)[|a|..|a| + |y|];
  }

  /** Providers with different names get different property files. */
  lemma PromotionPathsDistinct(envName: string, n1: string, n2: string)
    requires n1 != n2
    ensures PropertiesPath(envName, n1) != PropertiesPath(envName, n2)
  {
    var pre := ".awsdeployment/providers/" + envName + "-";
    if PropertiesPath(envName, n1) == PropertiesPath(envName, n2) {
      assert PropertiesPath(envName, n1) == pre + n1 + ".properties";
      assert PropertiesPath(envName, n2) == pre + n2 + ".properties";
      FramedInjective(pre, n1, n2, ".properties");
    }
  }

  /**
   * `promoteAppToGit`: look the project up; on failure report it and post
   * nothing; otherwise post one commit to `main` and classify the answer.
   */
  function PromoteAppToGit(input: AppPromoParams, hits: seq<SearchHit>, roleArnOf: string -> string,
                           response: HttpResponse): (r: Run)
    ensures r.posted.None? <==> GetGitProjectId(hits, input.gitProjectGroup, input.gitRepoName).Err?
    ensures r.posted.None? ==> r.outcome == LookupFailure(input.gitRepoName)
    ensures r.posted.Some? ==>
      r.posted.value.projectId == GetGitProjectId(hits, input.gitProjectGroup, input.gitRepoName).value &&
      r.posted.value.commit.branch == "main" &&
      r.posted.value.commit.commitMessage == "generate CICD stages" &&
      r.posted.value.commit.actions == PromotionActions(input, roleArnOf) &&
      r.outcome == Classify(Promotion, input.envName, response)
  {
    match GetGitProjectId(hits, input.gitProjectGroup, input.gitRepoName)
    case Err(_) => Run(None, LookupFailure(input.gitRepoName))
    case Ok(id) =>
      var commit := Commit(Branch, "generate CICD stages", PromotionActions(input, roleArnOf));
      Run(Some(Post(id, commit)), Classify(Promotion, input.envName, response))
  }

  // ---------------------------------------------------------------------------
  // Resource binding
  // ---------------------------------------------------------------------------

  function PolicyPath(input: BindResourceParams, policy: Policy): string {
    ".iac/aws_ecs/permissions/" + input.envName + "/" + input.providerName + "/" + policy.policyFileName + ".json"
  }

  const MarkerPath := ".awsdeployment/resource-binding-params-temp.properties"

  /** The four entries of the binding marker file. */
  function MarkerEntries(input: BindResourceParams): seq<Entry> {
    [ Entry("RESOURCE_ENTITY_REF", input.resourceEntityRef),
      Entry("RESOURCE_ENTITY", input.resourceName),
      Entry("TARGET_ENV_NAME", input.envName),
      Entry("TARGET_ENV_PROVIDER_NAME", input.providerName) ]
  }

  /** The marker text: its four entries as property lines, without the final newline. */
  function MarkerContent(input: BindResourceParams): (r: string)
    ensures r + "\n" == Render(MarkerEntries(input))
  {
    var m := MarkerEntries(input);
    var last := m[3].key + "=" + m[3].value;
    assert Render(m[3..]) == last + "\n" by {
      assert m[3..][1..] == [];
    }
    assert m[1..][1..] == m[2..] && m[2..][1..] == m[3..];
    assert Render(m[2..]) == Line(m[2]) + (last + "\n");
    assert Render(m[1..]) == Line(m[1]) + Render(m[2..]);
    assert Render(m) == Line(m[0]) + Render(m[1..]);
    Line(m[0]) + Line(m[1]) + Line(m[2]) + last
  }

  function MarkerAction(input: BindResourceParams): CommitAction {
    CommitAction(Create, MarkerPath, MarkerContent(input))
  }

  /** One action with the given verb per policy file, in policy order. */
  function PolicyActions(verb: Verb, input: BindResourceParams): seq<CommitAction> {
    seq(|input.policies|, i requires 0 <= i < |input.policies| =>
      CommitAction(verb, PolicyPath(input, input.policies[i]), input.policies[i].policyContent))
  }

  /** Bind: a `create` per policy file, then the marker file. */
  function BindActions(input: BindResourceParams): (r: seq<CommitAction>)
    ensures |r| == |input.policies| + 1
    ensures forall i :: 0 <= i < |input.policies| ==>
      r[i] == CommitAction(Create, PolicyPath(input, input.policies[i]), input.policies[i].policyContent)
    ensures r[|input.policies|] == CommitAction(Create, MarkerPath, MarkerContent(input))
  {
    PolicyActions(Create, input) + [MarkerAction(input)]
  }

  /** Unbind: a `delete` per policy file, then the marker file, still created. */
  function UnbindActions(input: BindResourceParams): (r: seq<CommitAction>)
    ensures |r| == |input.policies| + 1
    ensures forall i :: 0 <= i < |input.policies| ==>
      r[i] == CommitAction(Delete, PolicyPath(input, input.policies[i]), input.policies[i].policyContent)
    ensures r[|input.policies|] == CommitAction(Create, MarkerPath, MarkerContent(input))
  {
    PolicyActions(Delete, input) + [MarkerAction(input)]
  }

  /**
   * Bind and unbind touch the same files with the same contents, in the same
   * order; they differ only in the verb of the policy actions.
   */
  lemma BindUnbindMirror(input: BindResourceParams)
    ensures var b, u := BindActions(input), UnbindActions(input);
      |b| == |u| &&
      (forall i :: 0 <= i < |b| ==> b[i].filePath == u[i].filePath && b[i].content == u[i].content) &&
      (forall i :: 0 <= i < |input.policies| ==> b[i].action == Create && u[i].action == Delete) &&
      b[|b| - 1] == u[|u| - 1] && u[|u| - 1].action == Create
  {
  }

  function BindCommit(input: BindResourceParams): Commit {
    Commit(Branch, "Bind Resource", BindActions(input))
  }

  function UnbindCommit(input: BindResourceParams): Commit {
    Commit(Branch, "UnBind Resource", UnbindActions(input))
  }

  /**
   * `bindResource` as written: the lookup decides whether a commit is made,
   * but the commit goes to the FIRST search hit's project.
   */
  function BindResource(input: BindResourceParams, hits: seq<SearchHit>, response: HttpResponse): (r: Run)
    ensures r.posted.None? <==> GetGitProjectId(hits, input.gitProjectGroup, input.gitRepoName).Err?
    ensures r.posted.None? ==> r.outcome == LookupFailure(input.gitRepoName)
    ensures r.posted.Some? ==> (|hits| > 0 &&
      r.posted.value == Post(hits[0].id, BindCommit(input)) &&
      r.outcome == Classify(Binding, input.envName, response))
  {
    match GetGitProjectId(hits, input.gitProjectGroup, input.gitRepoName)
    case Err(_) => Run(None, LookupFailure(input.gitRepoName))
    case Ok(_) => Run(Some(Post(hits[0].id, BindCommit(input))), Classify(Binding, input.envName, response))
  }

  /** `unBindResource` as written, with the same first-hit target as `bindResource`. */
  function UnBindResource(input: BindResourceParams, hits: seq<SearchHit>, response: HttpResponse): (r: Run)
    ensures r.posted.None? <==> GetGitProjectId(hits, input.gitProjectGroup, input.gitRepoName).Err?
    ensures r.posted.None? ==> r.outcome == LookupFailure(input.gitRepoName)
    ensures r.posted.Some? ==> (|hits| > 0 &&
      r.posted.value == Post(hits[0].id, UnbindCommit(input)) &&
      r.outcome == Classify(Unbinding, input.envName, response))
  {
    match GetGitProjectId(hits, input.gitProjectGroup, input.gitRepoName)
    case Err(_) => Run(None, LookupFailure(input.gitRepoName))
    case Ok(_) => Run(Some(Post(hits[0].id, UnbindCommit(input))), Classify(Unbinding, input.envName, response))
  }

  /** Sample inputs on which the first hit is a different project from the exact match. */
  function SampleBinding(): BindResourceParams {
    BindResourceParams("qa", "qa-ecs", "git.example.com", "aws-app", "orders", "orders-db",
                       "awsresource:default/orders-db", [Policy("rds-access", "{}")])
  }

  function SampleHits(): seq<SearchHit> {
    [SearchHit("aws-app/orders-ui", "7"), SearchHit("aws-app/orders", "42")]
  }

  /**
   * The search is by substring, so a sibling repository can come first: the
   * lookup picks project 42, yet bind and unbind post to project 7.
   */
  lemma BindTargetsFirstHitNotExactMatch()
    ensures GetGitProjectId(SampleHits(), "aws-app", "orders") == Ok("42")
    ensures BindResource(SampleBinding(), SampleHits(), HttpResponse(201, None)).posted.value.projectId == "7"
    ensures UnBindResource(SampleBinding(), SampleHits(), HttpResponse(201, None)).posted.value.projectId == "7"
  {
    var hits := SampleHits();
    assert hits[0].pathWithNamespace != ProjectPath("aws-app", "orders");
    assert hits[1].pathWithNamespace == ProjectPath("aws-app", "orders");
    assert IsFirstMatch(hits, ProjectPath("aws-app", "orders"), 1);
  }

  /** `bindResource` posting to the project the lookup found. */
  function BindResourceToMatch(input: BindResourceParams, hits: seq<SearchHit>, response: HttpResponse): (r: Run)
    ensures r.posted.None? <==> GetGitProjectId(hits, input.gitProjectGroup, input.gitRepoName).Err?
    ensures r.posted.None? ==> r.outcome == LookupFailure(input.gitRepoName)
    ensures r.posted.Some? ==>
      r.posted.value.commit == BindCommit(input) &&
      r.outcome == Classify(Binding, input.envName, response) &&
      exists i :: IsFirstMatch(hits, ProjectPath(input.gitProjectGroup, input.gitRepoName), i) &&
                  hits[i].id == r.posted.value.projectId
  {
    match GetGitProjectId(hits, input.gitProjectGroup, input.gitRepoName)
    case Err(_) => Run(None, LookupFailure(input.gitRepoName))
    case Ok(id) => Run(Some(Post(id, BindCommit(input))), Classify(Binding, input.envName, response))
  }

  /** `unBindResource` posting to the project the lookup found. */
  function UnBindResourceToMatch(input: BindResourceParams, hits: seq<SearchHit>, response: HttpResponse): (r: Run)
    ensures r.posted.None? <==> GetGitProjectId(hits, input.gitProjectGroup, input.gitRepoName).Err?
    ensures r.posted.None? ==> r.outcome == LookupFailure(input.gitRepoName)
    ensures r.posted.Some? ==>
      r.posted.value.commit == UnbindCommit(input) &&
      r.outcome == Classify(Unbinding, input.envName, response) &&
      exists i :: IsFirstMatch(hits, ProjectPath(input.gitProjectGroup, input.gitRepoName), i) &&
                  hits[i].id == r.posted.value.projectId
  {
    match GetGitProjectId(hits, input.gitProjectGroup, input.gitRepoName)
    case Err(_) => Run(None, LookupFailure(input.gitRepoName))
    case Ok(id) => Run(Some(Post(id, UnbindCommit(input))), Classify(Unbinding, input.envName, response))
  }

  /** With the target fixed, binding is what the source does whenever the exact match is the first hit. */
  lemma BindToMatchAgreesWhenMatchIsFirst(input: BindResourceParams, hits: seq<SearchHit>, response: HttpResponse)
    requires |hits| > 0 && hits[0].pathWithNamespace == ProjectPath(input.gitProjectGroup, input.gitRepoName)
    ensures BindResourceToMatch(input, hits, response) == BindResource(input, hits, response)
    ensures UnBindResourceToMatch(input, hits, response) == UnBindResource(input, hits, response)
  {
    assert IsFirstMatch(hits, ProjectPath(input.gitProjectGroup, input.gitRepoName), 0);
  }

  // ---------------------------------------------------------------------------
  // Repository deletion
  // ---------------------------------------------------------------------------

  /** What `deleteRepository` did: the `<group>%2F<repo>` it asked to delete, if any, and what it reported. */
  datatype DeleteRun = DeleteRun(deletedPath: Option<string>, outcome: Outcome)

  /**
   * `deleteRepository`: the same exact-match lookup; when it succeeds the
   * repository is deleted by its encoded path and a status above 299 is FAILURE.
   */
  function DeleteRepository(group: string, repo: string, hits: seq<SearchHit>, deleteStatus: int): (r: DeleteRun)
    ensures r.deletedPath.None? <==> GetGitProjectId(hits, group, repo).Err?
    ensures r.deletedPath.None? ==> r.outcome == LookupFailure(repo)
    ensures r.deletedPath.Some? ==>
      r.deletedPath.value == group + "%2F" + repo &&
      (r.outcome.status == Success <==> deleteStatus <= 299) &&
      r.outcome.message == (if deleteStatus > 299 then "Repository failed to delete"
                            else "Repository deleted successfully")
  {
    match GetGitProjectId(hits, group, repo)
    case Err(_) => DeleteRun(None, LookupFailure(repo))
    case Ok(_) =>
      var path := group + "%2F" + repo;
      if deleteStatus > 299 then DeleteRun(Some(path), Outcome(Failure, "Repository failed to delete"))
      else DeleteRun(Some(path), Outcome(Success, "Repository deleted successfully"))
  }
}
