/**
 * The promotion card (`AppPromoCard`): which environments an application may
 * be promoted to next, the ECS parameters each target provider needs, the
 * provider records sent with a promotion, and the card's list of choices.
 *
 * Catalog reads, parameter-store reads and the backend call are inputs:
 * entities arrive already fetched, the parameter store is a map, and the
 * backend's answer is an `Outcome`.
 */
module AppPromoCard {
  import opened Wrappers
  import opened Text
  import opened Properties
  import opened AppsCommon
  import AwsPlatform

  // ---------------------------------------------------------------------------
  // Candidate environments
  // ---------------------------------------------------------------------------

  /**
   * An `awsenvironment` catalog entity: its name, its `environment-type`, and
   * its `level` as `Number.parseInt` reads it (None where that gives NaN).
   */
  datatype CatalogEntity = CatalogEntity(name: string, environmentType: Option<string>, level: Option<int>)

  /** One of the application's deployed environments: its key and its environment's level. */
  datatype DeployedEnvironment = DeployedEnvironment(key: string, level: int)

  /** The highest deployed level, never below 1. */
  function HighestLevel(deployed: seq<DeployedEnvironment>): (r: int)
    ensures r >= 1
    ensures forall i :: 0 <= i < |deployed| ==> deployed[i].level <= r
    ensures r == 1 || exists i :: 0 <= i < |deployed| && deployed[i].level == r
  {
    if deployed == [] then 1
    else
      var prefix := deployed[..|deployed| - 1];
      var h := HighestLevel(prefix);
      var last := deployed[|deployed| - 1].level;
      assert forall i :: 0 <= i < |prefix| ==> prefix[i] == deployed[i];
      if h <= last then last else h
  }

  /** `getHighestLevelEnvironment`: one pass over the deployed environments, keeping the largest level. */
  method GetHighestLevelEnvironment(currentEnvironments: seq<DeployedEnvironment>) returns (highestLevel: int)
    ensures highestLevel == HighestLevel(currentEnvironments)
    ensures highestLevel >= 1
    ensures forall i :: 0 <= i < |currentEnvironments| ==> currentEnvironments[i].level <= highestLevel
  {
    highestLevel := 1;
    for i := 0 to |currentEnvironments|
      invariant highestLevel == HighestLevel(currentEnvironments[..i])
    {
      assert currentEnvironments[..i + 1][..i] == currentEnvironments[..i];
      if highestLevel <= currentEnvironments[i].level {
        highestLevel := currentEnvironments[i].level;
      }
    }
    assert currentEnvironments[..|currentEnvironments|] == currentEnvironments;
  }

  predicate IsDeployed(name: string, deployed: seq<DeployedEnvironment>) {
    exists i :: 0 <= i < |deployed| && deployed[i].key == name
  }

  /** Same environment type, not deployed yet, and a numeric level at or above `lowest`. */
  predicate Qualifies(e: CatalogEntity, envType: string, deployed: seq<DeployedEnvironment>, lowest: int) {
    e.environmentType == Some(envType) && !IsDeployed(e.name, deployed) &&
    e.level.Some? && e.level.value >= lowest
  }

  /** The `filter` step: the qualifying entities, in catalog order. */
  function FilterCandidates(catalog: seq<CatalogEntity>, envType: string, deployed: seq<DeployedEnvironment>,
                            lowest: int): (r: seq<CatalogEntity>)
    ensures forall e :: e in r ==> Qualifies(e, envType, deployed, lowest)
  {
    if catalog == [] then []
    else
      (if Qualifies(catalog[0], envType, deployed, lowest) then [catalog[0]] else []) +
      FilterCandidates(catalog[1..], envType, deployed, lowest)
  }

  /** The filter keeps each qualifying entity as often as the catalog holds it, and nothing else. */
  lemma {:induction false} FilterCandidatesCounts(catalog: seq<CatalogEntity>, envType: string,
                                                  deployed: seq<DeployedEnvironment>, lowest: int)
    ensures forall e :: multiset(FilterCandidates(catalog, envType, deployed, lowest))[e] ==
                        if Qualifies(e, envType, deployed, lowest) then multiset(catalog)[e] else 0
  {
    if catalog != [] {
      FilterCandidatesCounts(catalog[1..], envType, deployed, lowest);
      assert catalog == [catalog[0]] + catalog[1..];
    }
  }

  predicate Numeric(s: seq<CatalogEntity>) {
    forall i :: 0 <= i < |s| ==> s[i].level.Some?
  }

  predicate SortedByLevel(s: seq<CatalogEntity>)
    requires Numeric(s)
  {
    forall i, j :: 0 <= i < j < |s| ==> s[i].level.value <= s[j].level.value
  }

  /** Every entity of `s` has a level of at least `bound`. */
  predicate AtLeast(s: seq<CatalogEntity>, bound: int)
    requires Numeric(s)
  {
    forall i :: 0 <= i < |s| ==> s[i].level.value >= bound
  }

  /** Places `x` in front of the first entity whose level is not below its own. */
  function Insert(x: CatalogEntity, t: seq<CatalogEntity>): (r: seq<CatalogEntity>)
    requires x.level.Some? && Numeric(t)
    ensures Numeric(r)
    ensures multiset(r) == multiset(t) + multiset{x}
  {
    if t == [] then [x]
    else if x.level.value <= t[0].level.value then [x] + t
    else
      assert t == [t[0]] + t[1..];
      [t[0]] + Insert(x, t[1..])
  }

  /** A bound that holds of `x` and of `t` holds of the insertion. */
  lemma {:induction false} InsertAtLeast(x: CatalogEntity, t: seq<CatalogEntity>, bound: int)
    requires x.level.Some? && Numeric(t)
    requires x.level.value >= bound && AtLeast(t, bound)
    ensures AtLeast(Insert(x, t), bound)
  {
    if t != [] && x.level.value > t[0].level.value {
      InsertAtLeast(x, t[1..], bound);
      var rest := Insert(x, t[1..]);
      assert forall i :: 1 <= i < |rest| + 1 ==> ([t[0]] + rest)[i] == rest[i - 1];
    }
  }

  /** Insertion into a sorted list keeps it sorted. */
  lemma {:induction false} InsertSorted(x: CatalogEntity, t: seq<CatalogEntity>)
    requires x.level.Some? && Numeric(t) && SortedByLevel(t)
    ensures SortedByLevel(Insert(x, t))
  {
    if t != [] && x.level.value > t[0].level.value {
      InsertSorted(x, t[1..]);
      InsertAtLeast(x, t[1..], t[0].level.value);
      var rest := Insert(x, t[1..]);
      assert forall i :: 1 <= i < |rest| + 1 ==> ([t[0]] + rest)[i] == rest[i - 1];
    }
  }

  /** `sort` by level; `Array.prototype.sort` is stable, and so is this insertion sort. */
  function SortByLevel(s: seq<CatalogEntity>): (r: seq<CatalogEntity>)
    requires Numeric(s)
    ensures Numeric(r) && SortedByLevel(r)
    ensures multiset(r) == multiset(s)
  {
    if s == [] then []
    else
      assert s == [s[0]] + s[1..];
      InsertSorted(s[0], SortByLevel(s[1..]));
      Insert(s[0], SortByLevel(s[1..]))
  }

  /** The entities of level `level`, in the order they appear. */
  function AtLevel(s: seq<CatalogEntity>, level: int): seq<CatalogEntity> {
    if s == [] then []
    else (if s[0].level == Some(level) then [s[0]] else []) + AtLevel(s[1..], level)
  }

  lemma AtLevelCons(x: CatalogEntity, t: seq<CatalogEntity>, level: int)
    ensures AtLevel([x] + t, level) == (if x.level == Some(level) then [x] else []) + AtLevel(t, level)
  {
    assert ([x] + t)[0] == x && ([x] + t)[1..] == t;
  }

  /** Inserting `x` puts it ahead of every entity of its level that was already there. */
  lemma {:induction false} InsertKeepsTies(x: CatalogEntity, t: seq<CatalogEntity>, level: int)
    requires x.level.Some? && Numeric(t)
    ensures AtLevel(Insert(x, t), level) == (if x.level == Some(level) then [x] else []) + AtLevel(t, level)
  {
    if t == [] {
      AtLevelCons(x, [], level);
    } else if x.level.value <= t[0].level.value {
      AtLevelCons(x, t, level);
    } else {
      var rest := Insert(x, t[1..]);
      assert Insert(x, t) == [t[0]] + rest;
      InsertKeepsTies(x, t[1..], level);
      AtLevelCons(t[0], rest, level);
      assert t == [t[0]] + t[1..];
      AtLevelCons(t[0], t[1..], level);
      if x.level == Some(level) {
        assert t[0].level != Some(level);
      }
    }
  }

  /** Stability: the entities of any one level keep their relative order. */
  lemma {:induction false} SortKeepsTies(s: seq<CatalogEntity>, level: int)
    requires Numeric(s)
    ensures AtLevel(SortByLevel(s), level) == AtLevel(s, level)
  {
    if s != [] {
      SortKeepsTies(s[1..], level);
      InsertKeepsTies(s[0], SortByLevel(s[1..]), level);
      AtLevelCons(s[0], s[1..], level);
      assert s == [s[0]] + s[1..];
    }
  }

  /** `getApplicableEnvironments`: filter the catalog, then sort by level. */
  function ApplicableEnvironments(catalog: seq<CatalogEntity>, envType: string,
                                  deployed: seq<DeployedEnvironment>): (r: seq<CatalogEntity>)
    ensures Numeric(r) && SortedByLevel(r)
    ensures multiset(r) == multiset(FilterCandidates(catalog, envType, deployed, HighestLevel(deployed)))
  {
    var candidates := FilterCandidates(catalog, envType, deployed, HighestLevel(deployed));
    assert Numeric(candidates) by {
      forall i | 0 <= i < |candidates| ensures candidates[i].level.Some? {
        assert candidates[i] in candidates;
      }
    }
    SortByLevel(candidates)
  }

  /** The candidates are exactly the qualifying catalog entities, each as often as in the catalog. */
  lemma ApplicableEnvironmentsMembers(catalog: seq<CatalogEntity>, envType: string, deployed: seq<DeployedEnvironment>)
    ensures var r := ApplicableEnvironments(catalog, envType, deployed);
      forall e :: multiset(r)[e] == if Qualifies(e, envType, deployed, HighestLevel(deployed)) then multiset(catalog)[e] else 0
    ensures var r := ApplicableEnvironments(catalog, envType, deployed);
      forall e :: e in r <==> e in catalog && Qualifies(e, envType, deployed, HighestLevel(deployed))
  {
    var r := ApplicableEnvironments(catalog, envType, deployed);
    FilterCandidatesCounts(catalog, envType, deployed, HighestLevel(deployed));
    forall e ensures e in r <==> e in catalog && Qualifies(e, envType, deployed, HighestLevel(deployed)) {
      assert e in r <==> e in multiset(r);
      assert e in catalog <==> e in multiset(catalog);
    }
  }

  /**
   * Every candidate has the application's type, is not deployed yet and sits
   * at or above the highest deployed level; the list ascends by level.
   */
  lemma ApplicableEnvironmentsOrdered(catalog: seq<CatalogEntity>, envType: string, deployed: seq<DeployedEnvironment>)
    ensures var r := ApplicableEnvironments(catalog, envType, deployed);
      forall i :: 0 <= i < |r| ==>
        r[i].environmentType == Some(envType) && !IsDeployed(r[i].name, deployed) &&
        r[i].level.Some? && r[i].level.value >= HighestLevel(deployed)
    ensures var r := ApplicableEnvironments(catalog, envType, deployed);
      forall i, j :: 0 <= i < j < |r| ==> r[i].level.Some? && r[j].level.Some? && r[i].level.value <= r[j].level.value
  {
    var r := ApplicableEnvironments(catalog, envType, deployed);
    forall i | 0 <= i < |r| ensures Qualifies(r[i], envType, deployed, HighestLevel(deployed)) {
      assert r[i] in multiset(r);
    }
  }

  /** Candidates of equal level keep their catalog order. */
  lemma ApplicableEnvironmentsStable(catalog: seq<CatalogEntity>, envType: string, deployed: seq<DeployedEnvironment>,
                                     level: int)
    ensures AtLevel(ApplicableEnvironments(catalog, envType, deployed), level) ==
            AtLevel(FilterCandidates(catalog, envType, deployed, HighestLevel(deployed)), level)
  {
    var candidates := FilterCandidates(catalog, envType, deployed, HighestLevel(deployed));
    assert Numeric(candidates) by {
      forall i | 0 <= i < |candidates| ensures candidates[i].level.Some? {
        assert candidates[i] in candidates;
      }
    }
    SortKeepsTies(candidates, level);
  }

  const Prod := CatalogEntity("prod", Some("ecs"), Some(3))
  const Dev := CatalogEntity("dev", Some("ecs"), Some(1))
  const EksDev := CatalogEntity("eks-dev", Some("eks"), Some(2))
  const Staging := CatalogEntity("staging", Some("ecs"), Some(2))

  /**
   * With `dev` deployed at level 1, an ECS application can go to `staging`
   * and `prod`, nearest first, whatever their catalog order.
   */
  lemma PromotionScenario()
    ensures ApplicableEnvironments([Prod, Dev, EksDev, Staging], "ecs", [DeployedEnvironment("dev", 1)])
            == [Staging, Prod]
  {
    var deployed := [DeployedEnvironment("dev", 1)];
    assert HighestLevel(deployed) == 1;
    assert IsDeployed("dev", deployed);
    assert !IsDeployed("prod", deployed) && !IsDeployed("staging", deployed);
    assert Qualifies(Prod, "ecs", deployed, 1) && Qualifies(Staging, "ecs", deployed, 1);
    assert !Qualifies(Dev, "ecs", deployed, 1) && !Qualifies(EksDev, "ecs", deployed, 1);
    var catalog := [Prod, Dev, EksDev, Staging];
    assert catalog[1..] == [Dev, EksDev, Staging] && catalog[1..][1..] == [EksDev, Staging];
    assert catalog[1..][1..][1..] == [Staging];
    assert FilterCandidates([Staging], "ecs", deployed, 1) == [Staging];
    assert FilterCandidates([EksDev, Staging], "ecs", deployed, 1) == [Staging];
    assert FilterCandidates([Dev, EksDev, Staging], "ecs", deployed, 1) == [Staging];
    assert FilterCandidates([Prod, Dev, EksDev, Staging], "ecs", deployed, 1) == [Prod, Staging];
    assert [Staging][1..] == [] && [Prod, Staging][1..] == [Staging];
    assert SortByLevel([Staging]) == Insert(Staging, []) == [Staging];
    assert Insert(Prod, []) == [Prod];
    assert Insert(Prod, [Staging]) == [Staging] + Insert(Prod, []);
    assert SortByLevel([Prod, Staging]) == Insert(Prod, [Staging]);
  }

  // ---------------------------------------------------------------------------
  // Provider parameters
  // ---------------------------------------------------------------------------

  /** The metadata of an `awsenvironmentprovider` catalog entity that the card reads. */
  datatype ProviderEntity = ProviderEntity(
    name: string,
    awsAccount: Option<string>,
    awsRegion: Option<string>,
    prefix: Option<string>,
    provisioningRole: Option<string>,
    envType: Option<string>,
    vpc: Option<string>,
    clusterName: Option<string>,
    auditTable: Option<string>)

  /** Why no parameter map could be built for a provider. */
  datatype ParameterError =
    | NotImplemented(providerType: string)
    | UnknownProviderType(envType: Option<string>)
    | ParameterNotFound(parameterName: string)

  /**
   * The message of the error the card raises. For a missing parameter the
   * store's own error text is not modelled: the bare name is a placeholder.
   */
  function ErrorText(e: ParameterError): string {
    match e
    case NotImplemented(t) => "TO BE IMPLEMENTED - " + t
    case UnknownProviderType(t) => "UNKNOWN PROVIDER TYPE\" " + t.GetOr("undefined")
    case ParameterNotFound(n) => n
  }

  const EcsType := "ecs"
  const EksType := "eks"
  const ServerlessType := "serverless"

  /**
   * A parameter-store read, `Parameter?.Value || ""`: the store answers a
   * known name with its value, if it has one; an unknown name fails the read.
   */
  function SsmValue(store: map<string, Option<string>>, name: string): Result<string, ParameterError> {
    if name in store then Ok(store[name].GetOr("")) else Err(ParameterNotFound(name))
  }

  const EcsParameterKeys: seq<string> :=
    ["TARGET_VPCID", "TARGET_ECS_CLUSTER_ARN", "TARGET_ENV_NAME", "TARGET_ENV_PROVIDER_NAME", "TARGE_ENV_AUDIT"]

  /** The ECS parameter map, in its key order; names missing from the metadata are read as "". */
  function EcsParameters(store: map<string, Option<string>>, entity: ProviderEntity, envName: string,
                         providerName: string): Result<seq<Entry>, ParameterError>
  {
    var vpc :- SsmValue(store, entity.vpc.GetOr(""));
    var cluster :- SsmValue(store, entity.clusterName.GetOr(""));
    var auditTable :- SsmValue(store, entity.auditTable.GetOr(""));
    Ok([ Entry("TARGET_VPCID", vpc),
         Entry("TARGET_ECS_CLUSTER_ARN", cluster),
         Entry("TARGET_ENV_NAME", envName),
         Entry("TARGET_ENV_PROVIDER_NAME", providerName),
         Entry("TARGE_ENV_AUDIT", auditTable) ])
  }

  /** The provider's `env-type`, lower-cased, as the dispatch sees it. */
  function ProviderKind(entity: ProviderEntity): Option<string> {
    match entity.envType
    case None => None
    case Some(t) => Some(ToLower(t))
  }

  /**
   * `getParameters`: dispatch on the lower-cased provider type. ECS yields
   * the five-key map; EKS, Serverless and every other type raise an error.
   */
  function GetParameters(store: map<string, Option<string>>, entity: ProviderEntity, envName: string,
                         providerName: string): (r: Result<seq<Entry>, ParameterError>)
    ensures r.Ok? <==>
      ProviderKind(entity) == Some(EcsType) &&
      entity.vpc.GetOr("") in store && entity.clusterName.GetOr("") in store && entity.auditTable.GetOr("") in store
    ensures r.Ok? ==>
      |r.value| == 5 &&
      (forall i :: 0 <= i < 5 ==> r.value[i].key == EcsParameterKeys[i]) &&
      r.value[0].value == store[entity.vpc.GetOr("")].GetOr("") &&
      r.value[1].value == store[entity.clusterName.GetOr("")].GetOr("") &&
      r.value[2].value == envName &&
      r.value[3].value == providerName &&
      r.value[4].value == store[entity.auditTable.GetOr("")].GetOr("")
    ensures ProviderKind(entity) == Some(EksType) ==>
      r == Err(NotImplemented("eks")) && ErrorText(r.error) == "TO BE IMPLEMENTED - eks"
    ensures ProviderKind(entity) == Some(ServerlessType) ==>
      r == Err(NotImplemented("serverless")) && ErrorText(r.error) == "TO BE IMPLEMENTED - serverless"
    ensures ProviderKind(entity) !in {Some(EcsType), Some(EksType), Some(ServerlessType)} ==>
      r == Err(UnknownProviderType(ProviderKind(entity))) &&
      ErrorText(r.error) == "UNKNOWN PROVIDER TYPE\" " + (if entity.envType.None? then "undefined" else ToLower(entity.envType.value))
  {
    var kind := ProviderKind(entity);
    if kind == Some(EcsType) then EcsParameters(store, entity, envName, providerName)
    else if kind == Some(EksType) then Err(NotImplemented("eks"))
    else if kind == Some(ServerlessType) then Err(NotImplemented("serverless"))
    else Err(UnknownProviderType(kind))
  }

  /** The dispatch ignores the case of the provider type. */
  lemma GetParametersIgnoresCase(store: map<string, Option<string>>, entity: ProviderEntity, t: string,
                                 envName: string, providerName: string)
    ensures GetParameters(store, entity.(envType := Some(t)), envName, providerName) ==
            GetParameters(store, entity.(envType := Some(ToLower(t))), envName, providerName)
  {
    ToLowerIdempotent(t);
  }

  // ---------------------------------------------------------------------------
  // Provider records
  // ---------------------------------------------------------------------------

  /** A metadata value, for JavaScript truthiness. */
  datatype MetaValue = Missing | Null | Flag(b: bool) | Number(n: int) | Str(s: string) | Structured

  predicate Truthy(v: MetaValue) {
    match v
    case Missing => false
    case Null => false
    case Flag(b) => b
    case Number(n) => n != 0
    case Str(s) => s != ""
    case Structured => true
  }

  /** The selected `awsenvironment` entity: its name and its `deployment_requires_approval`. */
  datatype EnvironmentEntity = EnvironmentEntity(name: string, deploymentRequiresApproval: MetaValue)

  /** One provider's record, or the error its parameters raised. */
  function ProviderRecordFor(store: map<string, Option<string>>, env: EnvironmentEntity, p: ProviderEntity)
    : (r: Result<ProviderRecord, ParameterError>)
    ensures r.Ok? <==> GetParameters(store, p, env.name, p.name).Ok?
    ensures r.Err? ==> r.error == GetParameters(store, p, env.name, p.name).error
    ensures r.Ok? ==>
      r.value.environmentName == env.name &&
      r.value.envRequiresManualApproval == Truthy(env.deploymentRequiresApproval) &&
      r.value.providerName == p.name &&
      r.value.awsAccount == p.awsAccount.GetOr("") &&
      r.value.awsRegion == p.awsRegion.GetOr("") &&
      r.value.prefix == p.prefix.GetOr("") &&
      r.value.assumedRoleArn == p.provisioningRole.GetOr("") &&
      r.value.parameters == GetParameters(store, p, env.name, p.name).value
  {
    var parameters :- GetParameters(store, p, env.name, p.name);
    Ok(ProviderRecord(
      env.name, Truthy(env.deploymentRequiresApproval), p.name,
      p.awsAccount.GetOr(""), p.awsRegion.GetOr(""), p.prefix.GetOr(""), p.provisioningRole.GetOr(""),
      parameters))
  }

  /** The records in provider order, or the error of the first provider that fails. */
  function ResolveProviders(store: map<string, Option<string>>, env: EnvironmentEntity, providers: seq<ProviderEntity>)
    : (r: Result<seq<ProviderRecord>, ParameterError>)
    ensures r.Ok? <==> forall i :: 0 <= i < |providers| ==> ProviderRecordFor(store, env, providers[i]).Ok?
    ensures r.Ok? ==> (|r.value| == |providers| &&
      forall i :: 0 <= i < |providers| ==> r.value[i] == ProviderRecordFor(store, env, providers[i]).value)
    ensures r.Err? ==> exists i :: 0 <= i < |providers| && ProviderRecordFor(store, env, providers[i]) == Err(r.error)
  {
    if providers == [] then Ok([])
    else
      var first :- ProviderRecordFor(store, env, providers[0]);
      var rest :- ResolveProviders(store, env, providers[1..]);
      assert forall i :: 1 <= i < |providers| ==> providers[i] == providers[1..][i - 1];
      Ok([first] + rest)
  }

  /** `0, 1, ..., n - 1`. */
  function Indices(n: nat): (r: seq<nat>)
    ensures |r| == n
    ensures forall i :: 0 <= i < n ==> r[i] == i
    ensures forall x :: x in r ==> x < n
  {
    if n == 0 then [] else Indices(n - 1) + [n - 1]
  }

  /** `v` listed in the order of the indices in `order`. */
  function Permute<T>(v: seq<T>, order: seq<nat>): (r: seq<T>)
    requires forall k :: 0 <= k < |order| ==> order[k] < |v|
    ensures |r| == |order|
    ensures forall k :: 0 <= k < |order| ==> r[k] == v[order[k]]
  {
    if order == [] then [] else [v[order[0]]] + Permute(v, order[1..])
  }

  lemma {:induction false} PermuteAppend<T>(v: seq<T>, p: seq<nat>, q: seq<nat>)
    requires forall k :: 0 <= k < |p| ==> p[k] < |v|
    requires forall k :: 0 <= k < |q| ==> q[k] < |v|
    ensures forall k :: 0 <= k < |p + q| ==> (p + q)[k] < |v|
    ensures Permute(v, p + q) == Permute(v, p) + Permute(v, q)
  {
    assert forall k :: 0 <= k < |p + q| ==> (p + q)[k] == if k < |p| then p[k] else q[k - |p|];
    if p != [] {
      PermuteAppend(v, p[1..], q);
      assert (p + q)[1..] == p[1..] + q;
    }
  }

  /** Taking one occurrence of `a[0]` out of both sides keeps the multisets equal. */
  lemma RemoveOne(a: seq<nat>, b: seq<nat>, j: nat)
    requires multiset(a) == multiset(b) && |a| > 0 && j < |b| && b[j] == a[0]
    ensures multiset(a[1..]) == multiset(b[..j] + b[j + 1..])
  {
    assert a == [a[0]] + a[1..];
    assert b == b[..j] + [b[j]] + b[j + 1..];
    assert multiset(a) == multiset{a[0]} + multiset(a[1..]);
    assert multiset(b) == multiset{a[0]} + multiset(b[..j] + b[j + 1..]);
    forall e ensures multiset(a[1..])[e] == multiset(b[..j] + b[j + 1..])[e] {
      assert multiset(a)[e] == multiset(b)[e];
    }
  }

  lemma SplitAround(b: seq<nat>, j: nat, rest: seq<nat>)
    requires j < |b| && rest == b[..j] + b[j + 1..]
    ensures b == b[..j] + ([b[j]] + b[j + 1..])
    ensures forall k :: 0 <= k < |rest| ==> rest[k] in b
  {
    forall k | 0 <= k < |rest| ensures rest[k] in b {
      if k < j { assert rest[k] == b[k]; } else { assert rest[k] == b[k + 1]; }
    }
  }

  /** Moving one index to the front of an order does not change the multiset listed. */
  lemma PermuteMoveFront<T>(v: seq<T>, pre: seq<nat>, x: nat, post: seq<nat>)
    requires x < |v|
    requires forall k :: 0 <= k < |pre| ==> pre[k] < |v|
    requires forall k :: 0 <= k < |post| ==> post[k] < |v|
    ensures forall k :: 0 <= k < |pre + ([x] + post)| ==> (pre + ([x] + post))[k] < |v|
    ensures multiset(Permute(v, pre + ([x] + post))) == multiset{v[x]} + multiset(Permute(v, pre + post))
  {
    PermuteAppend(v, pre, post);
    PermuteAppend(v, pre, [x] + post);
    assert ([x] + post)[1..] == post;
    assert Permute(v, [x] + post) == [v[x]] + Permute(v, post);
  }

  /** Listing `v` in two orders with the same indices gives the same multiset. */
  lemma {:induction false} PermuteMultiset<T>(v: seq<T>, a: seq<nat>, b: seq<nat>)
    requires forall k :: 0 <= k < |a| ==> a[k] < |v|
    requires forall k :: 0 <= k < |b| ==> b[k] < |v|
    requires multiset(a) == multiset(b)
    ensures multiset(Permute(v, a)) == multiset(Permute(v, b))
    decreases |a|
  {
    if |a| == 0 {
      assert |b| == |multiset(b)| == 0;
    } else {
      var x := a[0];
      assert x in multiset(b);
      var j :| 0 <= j < |b| && b[j] == x;
      var pre, post := b[..j], b[j + 1..];
      RemoveOne(a, b, j);
      SplitAround(b, j, pre + post);
      PermuteMultiset(v, a[1..], pre + post);
      PermuteMoveFront(v, pre, x, post);
      assert Permute(v, a) == [v[x]] + Permute(v, a[1..]);
    }
  }

  /** Every index below `n` occurs in an order holding the same indices as `Indices(n)`. */
  lemma OrderCovers(order: seq<nat>, n: nat, i: nat)
    requires multiset(order) == multiset(Indices(n)) && i < n
    ensures exists k :: 0 <= k < |order| && order[k] == i
  {
    assert Indices(n)[i] == i;
    assert i in multiset(Indices(n));
    assert i in order;
  }

  /** Listing `v` in such an order gives back `v`'s multiset. */
  lemma PermuteOrder<T>(v: seq<T>, order: seq<nat>)
    requires forall k :: 0 <= k < |order| ==> order[k] < |v|
    requires multiset(order) == multiset(Indices(|v|))
    ensures multiset(Permute(v, order)) == multiset(v)
  {
    var ids := Indices(|v|);
    PermuteMultiset(v, order, ids);
    assert Permute(v, ids) == v;
  }

  /**
   * `getEnvProviders`: each provider's record is pushed when its parameters
   * arrive, so the list follows the completion order `order` (a permutation
   * of the provider indices); the first failure in that order rejects it.
   */
  method GetEnvProviders(store: map<string, Option<string>>, env: EnvironmentEntity, providers: seq<ProviderEntity>,
                         order: seq<nat>) returns (r: Result<seq<ProviderRecord>, ParameterError>)
    requires |order| == |providers|
    requires forall k :: 0 <= k < |order| ==> order[k] < |providers|
    requires multiset(order) == multiset(Indices(|providers|))
    ensures r.Ok? <==> ResolveProviders(store, env, providers).Ok?
    ensures r.Ok? ==> r.value == Permute(ResolveProviders(store, env, providers).value, order)
    ensures r.Ok? ==> multiset(r.value) == multiset(ResolveProviders(store, env, providers).value)
    ensures r.Err? ==> exists i :: 0 <= i < |providers| && ProviderRecordFor(store, env, providers[i]) == Err(r.error)
  {
    var envProviders: seq<ProviderRecord> := [];
    for k := 0 to |order|
      invariant |envProviders| == k
      invariant forall j :: 0 <= j < k ==> ProviderRecordFor(store, env, providers[order[j]]) == Ok(envProviders[j])
    {
      var record := ProviderRecordFor(store, env, providers[order[k]]);
      if record.Err? {
        return Err(record.error);
      }
      envProviders := envProviders + [record.value];
    }
    forall i | 0 <= i < |providers| ensures ProviderRecordFor(store, env, providers[i]).Ok? {
      OrderCovers(order, |providers|, i);
    }
    var inOrder := ResolveProviders(store, env, providers).value;
    r := Ok(envProviders);
    assert envProviders == Permute(inOrder, order);
    PermuteOrder(inOrder, order);
  }

  /** The promotion request `handleClick` sends. */
  datatype PromoBody = PromoBody(
    envName: string,
    envRequiresManualApproval: bool,
    gitHost: string,
    gitJobId: string,
    gitProjectGroup: string,
    gitAdminSecret: string,
    gitRepoName: string,
    providersData: seq<ProviderRecord>)

  /**
   * The request for the selected environment; none when there is no provider
   * record, since the manual-approval flag is read from the first one.
   */
  function PromoRequest(selected: string, gitHost: string, gitRepoName: string,
                        providers: seq<ProviderRecord>): (r: Option<PromoBody>)
    ensures r.Some? <==> |providers| > 0
    ensures r.Some? ==>
      r.value.envName == selected &&
      r.value.envRequiresManualApproval == providers[0].envRequiresManualApproval &&
      r.value.gitHost == gitHost &&
      r.value.gitRepoName == gitRepoName &&
      r.value.gitProjectGroup == "aws-app" &&
      r.value.gitJobId == "create-subsequent-environment-ci-config" &&
      r.value.gitAdminSecret == "aad-admin-gitlab-secrets" &&
      r.value.providersData == providers
  {
    if |providers| == 0 then None
    else Some(PromoBody(selected, providers[0].envRequiresManualApproval, gitHost,
                        "create-subsequent-environment-ci-config", "aws-app", "aad-admin-gitlab-secrets",
                        gitRepoName, providers))
  }

  /**
   * Reading the flag from the first record is safe: whatever order the
   * records arrived in, it is the environment's own approval flag.
   */
  lemma ManualApprovalIndependentOfOrder(store: map<string, Option<string>>, env: EnvironmentEntity,
                                         providers: seq<ProviderEntity>, order: seq<nat>,
                                         selected: string, gitHost: string, gitRepoName: string)
    requires |providers| > 0
    requires ResolveProviders(store, env, providers).Ok?
    requires forall k :: 0 <= k < |order| ==> order[k] < |providers|
    requires |order| == |providers|
    ensures var records := Permute(ResolveProviders(store, env, providers).value, order);
      PromoRequest(selected, gitHost, gitRepoName, records).Some? &&
      PromoRequest(selected, gitHost, gitRepoName, records).value.envRequiresManualApproval ==
        Truthy(env.deploymentRequiresApproval)
  {
    var v := ResolveProviders(store, env, providers).value;
    assert v[order[0]] == ProviderRecordFor(store, env, providers[order[0]]).value;
  }

  // ---------------------------------------------------------------------------
  // The card's choice list
  // ---------------------------------------------------------------------------

  /** The choices without the entities of the given name, in their order. */
  function Without(choices: seq<CatalogEntity>, name: string): (r: seq<CatalogEntity>)
    ensures forall e :: e in r <==> e in choices && e.name != name
    ensures forall e :: multiset(r)[e] == if e.name == name then 0 else multiset(choices)[e]
  {
    if choices == [] then []
    else
      assert choices == [choices[0]] + choices[1..];
      (if choices[0].name != name then [choices[0]] else []) + Without(choices[1..], name)
  }

  /** Removing a name works piece by piece, so the kept choices stay in their order. */
  lemma {:induction false} WithoutAppend(a: seq<CatalogEntity>, b: seq<CatalogEntity>, name: string)
    ensures Without(a + b, name) == Without(a, name) + Without(b, name)
  {
    if a == [] {
      assert a + b == b;
    } else {
      assert (a + b)[0] == a[0] && (a + b)[1..] == a[1..] + b;
      WithoutAppend(a[1..], b, name);
    }
  }

  /** `k` is the first position whose choice does not carry `name`. */
  predicate FirstKeptAt(choices: seq<CatalogEntity>, name: string, k: nat) {
    k < |choices| && choices[k].name != name && forall j :: 0 <= j < k ==> choices[j].name == name
  }

  /** The first kept choice is the first choice with a different name. */
  lemma {:induction false} WithoutFirst(choices: seq<CatalogEntity>, name: string)
    ensures Without(choices, name) != [] ==>
      exists k: nat :: FirstKeptAt(choices, name, k) && choices[k] == Without(choices, name)[0]
  {
    if choices != [] {
      var rest := choices[1..];
      if choices[0].name != name {
        assert Without(choices, name)[0] == choices[0];
        assert FirstKeptAt(choices, name, 0);
      } else {
        assert Without(choices, name) == Without(rest, name);
        WithoutFirst(rest, name);
        if Without(rest, name) != [] {
          var k: nat :| FirstKeptAt(rest, name, k) && rest[k] == Without(rest, name)[0];
          FirstKeptAtCons(choices, name, k);
        }
      }
    }
  }

  /** A first kept position moves one on behind a leading choice that carries the name. */
  lemma FirstKeptAtCons(choices: seq<CatalogEntity>, name: string, k: nat)
    requires choices != [] && choices[0].name == name && FirstKeptAt(choices[1..], name, k)
    ensures FirstKeptAt(choices, name, k + 1) && choices[k + 1] == choices[1..][k]
  {
    assert forall j :: 1 <= j < k + 1 ==> choices[j] == choices[1..][j - 1];
  }

  /** Removing a name never lengthens the choices. */
  lemma {:induction false} WithoutShrinks(choices: seq<CatalogEntity>, name: string)
    ensures |Without(choices, name)| <= |choices|
  {
    if choices != [] {
      WithoutShrinks(choices[1..], name);
    }
  }

  /** Removing a name that some choice carries shortens the choices. */
  lemma {:induction false} WithoutDrops(choices: seq<CatalogEntity>, name: string, i: nat)
    requires i < |choices| && choices[i].name == name
    ensures |Without(choices, name)| < |choices|
  {
    if choices[0].name == name {
      WithoutShrinks(choices[1..], name);
    } else {
      assert choices[1..][i - 1].name == name;
      WithoutDrops(choices[1..], name, i - 1);
    }
  }

  /** The choice list after a promotion answered with `status`. */
  function ChoicesAfter(choices: seq<CatalogEntity>, selected: string, status: Status): seq<CatalogEntity> {
    if status == Success then Without(choices, selected) else choices
  }

  /**
   * A promotion the Git host rejects (a collision included, whose
   * "already scheduled" message still comes with FAILURE) leaves the choices as they were.
   */
  lemma RejectedPromotionKeepsChoices(choices: seq<CatalogEntity>, selected: string,
                                      response: AwsPlatform.HttpResponse)
    requires response.status > 299
    ensures ChoicesAfter(choices, selected, AwsPlatform.Classify(AwsPlatform.Promotion, selected, response).status)
            == choices
  {
  }

  /** An accepted promotion removes the promoted environment from the choices. */
  lemma AcceptedPromotionRemovesChoice(choices: seq<CatalogEntity>, selected: string,
                                       response: AwsPlatform.HttpResponse)
    requires response.status <= 299
    ensures forall e :: e in ChoicesAfter(choices, selected,
                                          AwsPlatform.Classify(AwsPlatform.Promotion, selected, response).status)
                        <==> e in choices && e.name != selected
  {
  }

  /** The card's state: the React state variables of `AppPromoCard`. */
  class PromoCardState {
    var envChoices: seq<CatalogEntity>
    var selectedItem: string
    var disabled: bool
    var spinning: bool
    var isPromotionSuccessful: bool
    var promotedEnvName: string
    var promoteResultMessage: string

    /** The selection is empty or names one of the choices. */
    ghost predicate Valid()
      reads this
    {
      selectedItem == "" || exists i :: 0 <= i < |envChoices| && envChoices[i].name == selectedItem
    }

    constructor ()
      ensures Valid()
      ensures envChoices == [] && selectedItem == "" && !disabled && !spinning
      ensures !isPromotionSuccessful && promotedEnvName == "" && promoteResultMessage == ""
    {
      envChoices := [];
      selectedItem := "";
      disabled := false;
      spinning := false;
      isPromotionSuccessful := false;
      promotedEnvName := "";
      promoteResultMessage := "";
    }

    /**
     * The mount effect: compute the candidates, select the first, or
     * disable the control when there are none.
     */
    method LoadChoices(catalog: seq<CatalogEntity>, envType: string, deployed: seq<DeployedEnvironment>)
      requires selectedItem == ""
      modifies this
      ensures Valid()
      ensures envChoices == ApplicableEnvironments(catalog, envType, deployed)
      ensures |envChoices| > 0 ==> selectedItem == envChoices[0].name && disabled == old(disabled)
      ensures |envChoices| == 0 ==> selectedItem == "" && disabled
      ensures spinning == old(spinning) && isPromotionSuccessful == old(isPromotionSuccessful)
      ensures promotedEnvName == old(promotedEnvName) && promoteResultMessage == old(promoteResultMessage)
    {
      var lowestEnvironmentLevel := GetHighestLevelEnvironment(deployed);
      var candidates := FilterCandidates(catalog, envType, deployed, lowestEnvironmentLevel);
      assert forall i :: 0 <= i < |candidates| ==> candidates[i] in candidates;
      var data := SortByLevel(candidates);
      envChoices := data;
      if |data| > 0 {
        selectedItem := data[0].name;
        assert envChoices[0].name == selectedItem;
      } else {
        disabled := true;
      }
    }

    /**
     * Picking an environment in the drop-down, which offers only the choices
     * and is covered by the backdrop while a promotion is running.
     */
    method HandleChange(value: string)
      requires !spinning
      requires exists i :: 0 <= i < |envChoices| && envChoices[i].name == value
      modifies this`selectedItem
      ensures Valid() && selectedItem == value
    {
      selectedItem := value;
    }

    /** The click handler's guard: with nothing selected it only alerts. */
    method Click() returns (started: bool)
      modifies this`spinning, this`promotedEnvName
      ensures started <==> selectedItem != ""
      ensures !started ==> spinning == old(spinning) && promotedEnvName == old(promotedEnvName)
      ensures started ==> spinning && promotedEnvName == ""
    {
      if selectedItem == "" {
        return false;
      }
      spinning := true;
      promotedEnvName := "";
      return true;
    }

    /**
     * The backend answered. On SUCCESS the promoted environment leaves the
     * choices and the first remaining one is selected, or the control is
     * disabled when none remain; otherwise the choices stay as they are.
     */
    method PromotionSettled(results: Outcome)
      requires Valid()
      modifies this
      ensures Valid()
      ensures !spinning && promotedEnvName == old(selectedItem)
      ensures promoteResultMessage == if results.message != "" then results.message else old(promoteResultMessage)
      ensures isPromotionSuccessful <==> results.status == Success
      ensures envChoices == ChoicesAfter(old(envChoices), old(selectedItem), results.status)
      ensures results.status == Success ==>
        forall i :: 0 <= i < |envChoices| ==> envChoices[i].name != old(selectedItem)
      ensures results.status == Success && envChoices == [] ==> disabled && selectedItem == ""
      ensures results.status == Success && envChoices != [] ==>
        selectedItem == envChoices[0].name && disabled == old(disabled)
      ensures results.status != Success ==> selectedItem == old(selectedItem) && disabled == old(disabled)
      ensures results.status == Success && old(selectedItem) != "" ==> |envChoices| < |old(envChoices)|
    {
      spinning := false;
      promotedEnvName := selectedItem;
      if results.message != "" {
        promoteResultMessage := results.message;
      }
      if results.status == Success {
        var newEnvChoices := Without(envChoices, selectedItem);
        if selectedItem != "" {
          var i :| 0 <= i < |envChoices| && envChoices[i].name == selectedItem;
          WithoutDrops(envChoices, selectedItem, i);
        }
        if |newEnvChoices| == 0 {
          disabled := true;
          selectedItem := "";
        } else {
          selectedItem := newEnvChoices[0].name;
        }
        envChoices := newEnvChoices;
        assert forall i :: 0 <= i < |envChoices| ==> envChoices[i] in envChoices;
        isPromotionSuccessful := true;
      } else {
        isPromotionSuccessful := false;
      }
    }

    /** Closing the result alert. */
    method CloseAlert()
      modifies this`promotedEnvName
      ensures promotedEnvName == ""
    {
      promotedEnvName := "";
    }

    /** The backend call failed outright. */
    method PromotionRejected()
      modifies this`spinning, this`promotedEnvName, this`isPromotionSuccessful
      ensures !spinning && promotedEnvName == selectedItem && !isPromotionSuccessful
    {
      spinning := false;
      promotedEnvName := selectedItem;
      isPromotionSuccessful := false;
    }
  }
}
