/**
 * The CDK application entry point (bin/app.ts): resolve the requested
 * environment key against the configured environments, then declare the
 * infrastructure stack and the pipeline stack that consumes it.
 *
 * The process environment and the CDK context are passed in as a `Context`
 * value; a thrown error is an `Err` result, which carries no stack at all.
 */
module App {
  import opened Constructs
  import opened Ascii
  import opened Infrastructure
  import opened Pipeline

  const DefaultRegion := "us-east-1"
  const InvalidEnvironment := "Please provide a valid environment"
  const InfrastructureStackSuffix := "-StaticSiteInfrastructure"
  const PipelineStackSuffix := "-Pipeline"

  datatype EnvironmentEntry = EnvironmentEntry(subdomain: string, branch: string)

  /** The "environments" context value: environment key to branch and subdomain. */
  type EnvironmentConfig = map<string, EnvironmentEntry>

  /**
   * What the entry point reads from outside: the account and the default region
   * from the process environment, and the "repo", "owner", "domain",
   * "environments" and "env" context values.
   */
  datatype Context = Context(
    account: Option<string>,
    defaultRegion: Option<string>,
    repo: string,
    owner: string,
    domain: string,
    environments: EnvironmentConfig,
    env: string)

  datatype ResolvedEnvironment = ResolvedEnvironment(
    key: string,
    branch: string,
    subdomain: string,
    domainName: string)

  /** The two stacks the application declares. */
  datatype App = App(infrastructure: StaticSiteInfrastructure, pipeline: PipelineStack)

  /** `process.env.CDK_DEFAULT_REGION || "us-east-1"`: an unset or empty variable falls back to the default. */
  function Region(defaultRegion: Option<string>): (r: string)
    ensures defaultRegion.Some? && defaultRegion.value != "" ==> r == defaultRegion.value
    ensures defaultRegion.None? || defaultRegion.value == "" ==> r == DefaultRegion
    ensures r != ""
  {
    match defaultRegion
    case Some(region) => if region != "" then region else DefaultRegion
    case None => DefaultRegion
  }

  function StackEnvOf(ctx: Context): StackEnv
  {
    StackEnv(ctx.account, Region(ctx.defaultRegion))
  }

  /**
   * Validates the requested key and looks up its entry: an unknown key fails
   * with the source's message; a known key yields exactly its configured branch
   * and subdomain, and the domain name is the subdomain followed directly by the
   * domain.
   */
  function Resolve(environments: EnvironmentConfig, key: string, domain: string): (r: Result<ResolvedEnvironment>)
    ensures r.Err? <==> key !in environments
    ensures r.Err? ==> r.error == InvalidEnvironment
    ensures r.Ok? ==> && r.value.key == key
                      && |r.value.domainName| == |r.value.subdomain| + |domain|
                      && r.value.branch == environments[key].branch
                      && r.value.subdomain == environments[key].subdomain
                      && r.value.domainName[..|r.value.subdomain|] == r.value.subdomain
                      && r.value.domainName[|r.value.subdomain|..] == domain
  {
    if key !in environments then Err(InvalidEnvironment)
    else
      var entry := environments[key];
      var domainName := entry.subdomain + domain;
      assert domainName[..|entry.subdomain|] == entry.subdomain;
      assert domainName[|entry.subdomain|..] == domain;
      Ok(ResolvedEnvironment(key, entry.branch, entry.subdomain, domainName))
  }

  /** `${key}-StaticSiteInfrastructure`. */
  function InfrastructureStackId(key: string): (r: string)
    ensures |r| == |key| + |InfrastructureStackSuffix|
    ensures r[..|key|] == key && r[|key|..] == InfrastructureStackSuffix
  {
    key + InfrastructureStackSuffix
  }

  /** `${key}-Pipeline`. */
  function PipelineStackId(key: string): (r: string)
    ensures |r| == |key| + |PipelineStackSuffix|
    ensures r[..|key|] == key && r[|key|..] == PipelineStackSuffix
  {
    key + PipelineStackSuffix
  }

  /**
   * The whole program: fail before declaring anything when the key is unknown;
   * otherwise declare the infrastructure stack with the resolved branch as its
   * environment, and then the pipeline stack with the key as its environment and
   * the very infrastructure value just declared.
   */
  function Synthesize(ctx: Context): (r: Result<App>)
    ensures r.Err? <==> ctx.env !in ctx.environments
    ensures r.Err? ==> r.error == InvalidEnvironment
    ensures r.Ok? ==>
      var entry, infra, pipe := ctx.environments[ctx.env], r.value.infrastructure, r.value.pipeline;
      && Constructed(infra)
      && infra.stackId == InfrastructureStackId(ctx.env)
      && pipe.stackId == PipelineStackId(ctx.env)
      && infra.props.environment == entry.branch
      && pipe.props.environment == ctx.env
      && infra.props.domainName == entry.subdomain + ctx.domain
      && infra.props.owner == ctx.owner && pipe.props.owner == ctx.owner
      && pipe.props.repo == ctx.repo && pipe.props.branch == entry.branch
      && infra.props.env == pipe.props.env == StackEnv(ctx.account, Region(ctx.defaultRegion))
      && pipe.props.infrastructure == infra
  {
    match Resolve(ctx.environments, ctx.env, ctx.domain)
    case Err(message) => Err(message)
    case Ok(resolved) =>
      var env := StackEnvOf(ctx);
      var infrastructure := NewStaticSiteInfrastructure(
        InfrastructureStackId(ctx.env),
        InfrastructureProps(resolved.branch, resolved.domainName, ctx.owner, env));
      var pipeline := NewPipeline(
        PipelineStackId(ctx.env),
        PipelineProps(ctx.env, ctx.repo, resolved.branch, ctx.owner, infrastructure, env));
      Ok(App(infrastructure, pipeline))
  }

  // ---------------------------------------------------------------------------
  // Names
  // ---------------------------------------------------------------------------

  lemma SuffixOfEqual(a: string, s: string, b: string, t: string)
    requires a + s == b + t && |t| <= |s|
    ensures s[|s| - |t|..] == t
  {
    var n := |a + s|;
    assert (a + s)[n - |t|..] == s[|s| - |t|..];
    assert (b + t)[n - |t|..] == t;
  }

  /**
   * Stack ids are determined by the key and tell keys apart, and no
   * infrastructure stack id equals any pipeline stack id.
   */
  lemma StackIdsDistinct(k1: string, k2: string)
    ensures InfrastructureStackId(k1) == InfrastructureStackId(k2) <==> k1 == k2
    ensures PipelineStackId(k1) == PipelineStackId(k2) <==> k1 == k2
    ensures InfrastructureStackId(k1) != PipelineStackId(k2)
  {
    if InfrastructureStackId(k1) == InfrastructureStackId(k2) {
      assert k1 == InfrastructureStackId(k1)[..|k1|];
      assert k2 == InfrastructureStackId(k2)[..|k2|];
    }
    if PipelineStackId(k1) == PipelineStackId(k2) {
      assert k1 == PipelineStackId(k1)[..|k1|];
      assert k2 == PipelineStackId(k2)[..|k2|];
    }
    if InfrastructureStackId(k1) == PipelineStackId(k2) {
      // The last nine characters would be both "structure" and "-Pipeline".
      SuffixOfEqual(k1, InfrastructureStackSuffix, k2, PipelineStackSuffix);
      assert false;
    }
  }

  /**
   * The buckets are named after the branch, the pipeline and its deploy action
   * after the key.
   */
  lemma NamesFollowBranchAndKey(ctx: Context)
    requires ctx.env in ctx.environments
    ensures var app, branch := Synthesize(ctx).value, ctx.environments[ctx.env].branch;
      && app.infrastructure.sourceBucket.bucketName == Lower(ctx.owner) + "-" + Lower(branch) + SourceBucketSuffix
      && app.infrastructure.deployBucket.bucketName == ctx.owner + "-" + branch + DeployBucketSuffix
      && app.pipeline.pipeline.pipelineName == ctx.env + PipelineNameSuffix
      && app.pipeline.pipeline.stages[2].actions[0].actionName == ctx.env + DeployActionSuffix
  {
    var app := Synthesize(ctx).value;
    BucketNaming(app.infrastructure.stackId, app.infrastructure.props);
    BindingsToInfrastructure(app.pipeline.stackId, app.pipeline.props);
  }

  /**
   * Two environment keys configured with the same branch get distinct stacks
   * but the very same bucket names.
   */
  lemma SharedBranchSharesBucketNames(ctx1: Context, ctx2: Context)
    requires ctx1.env in ctx1.environments && ctx2.env in ctx2.environments
    requires ctx1.env != ctx2.env && ctx1.owner == ctx2.owner
    requires ctx1.environments[ctx1.env].branch == ctx2.environments[ctx2.env].branch
    ensures var a1, a2 := Synthesize(ctx1).value, Synthesize(ctx2).value;
      && a1.infrastructure.stackId != a2.infrastructure.stackId
      && a1.infrastructure.sourceBucket.bucketName == a2.infrastructure.sourceBucket.bucketName
      && a1.infrastructure.deployBucket.bucketName == a2.infrastructure.deployBucket.bucketName
  {
    StackIdsDistinct(ctx1.env, ctx2.env);
  }

  // ---------------------------------------------------------------------------
  // Wiring across the two stacks
  // ---------------------------------------------------------------------------

  /**
   * The pipeline binds to the handles the infrastructure stack exposes and to
   * nothing else: its artifacts are the stack's two artifacts, its artifact
   * store is the stack's source bucket, and it deploys into the stack's deploy
   * bucket; the artifacts flow Source to Build to Deploy.
   */
  lemma PipelineUsesInfrastructureHandles(ctx: Context)
    requires ctx.env in ctx.environments
    ensures var app := Synthesize(ctx).value;
      var infra, st := app.infrastructure, app.pipeline.pipeline.stages;
      && infra.sourceOutput != infra.buildOutput
      && app.pipeline.pipeline.artifactBucket == infra.sourceBucket.ref
      && StageOutputs(st[0].actions) == [infra.sourceOutput]
      && StageInputs(st[1].actions) == [infra.sourceOutput]
      && StageOutputs(st[1].actions) == [infra.buildOutput]
      && StageInputs(st[2].actions) == [infra.buildOutput]
      && st[2].actions[0].S3DeployAction? && st[2].actions[0].bucket == infra.deployBucket.ref
      && st[2].actions[0].extract
      && ArtifactChainWellFormed(st) && NoOrphanArtifacts(st) && ProducedOnce(st)
  {
    var app := Synthesize(ctx).value;
    var infra, p := app.infrastructure, app.pipeline;
    ArtifactHandles(infra.stackId, infra.props);
    StagesAsDeclared(p.stackId, p.props);
    BindingsToInfrastructure(p.stackId, p.props);
    ArtifactChain(p.stackId, p.props);
    NoOrphanedOrDuplicatedArtifacts(p.stackId, p.props);
  }

  /** Everything the application declares, in declaration order. */
  function AppDeclarations(app: App): seq<Decl>
  {
    InfrastructureDeclarations(app.infrastructure) + PipelineDeclarations(app.pipeline)
  }

  /**
   * Across both stacks, every reference names a resource of the right kind
   * declared before it, and no two resources share an identity.
   */
  lemma AppDeclarationsWellFormed(ctx: Context)
    requires ctx.env in ctx.environments
    ensures var d := AppDeclarations(Synthesize(ctx).value);
      ReferencesResolveBackward(d) && DistinctRefs(d)
  {
    var app := Synthesize(ctx).value;
    var infra, p := app.infrastructure, app.pipeline;
    CrossStackReferencesResolve(p.stackId, p.props);
    InfrastructureRefsDistinct(infra.stackId, infra.props);
    PipelineRefsDistinct(p.stackId, p.props);
    StackIdsDistinct(ctx.env, ctx.env);
    ConcatDistinct(InfrastructureDeclarations(infra), infra.stackId, PipelineDeclarations(p), p.stackId);
  }

  // ---------------------------------------------------------------------------
  // Scenarios
  // ---------------------------------------------------------------------------

  /** A configuration with the single environment "dev" (branch "develop", subdomain "dev."). */
  function DevContext(owner: string, env: string): Context
  {
    Context(None, None, "site", owner, "example.com",
            map["dev" := EnvironmentEntry("dev.", "develop")], env)
  }

  /** The "dev" environment: its domain name, stack ids and pipeline name. */
  lemma DevScenario(owner: string)
    ensures Synthesize(DevContext(owner, "dev")).Ok?
    ensures var app := Synthesize(DevContext(owner, "dev")).value;
      && app.infrastructure.props.domainName == "dev.example.com"
      && app.infrastructure.stackId == "dev-StaticSiteInfrastructure"
      && app.pipeline.stackId == "dev-Pipeline"
      && app.pipeline.pipeline.pipelineName == "dev-pipeline"
      && app.infrastructure.props.environment == "develop"
      && app.infrastructure.props.env.region == DefaultRegion
  {
    var ctx := DevContext(owner, "dev");
    assert ctx.env in ctx.environments;
    var app := Synthesize(ctx).value;
    assert app.infrastructure.props.domainName == "dev." + "example.com";
    assert app.infrastructure.stackId == "dev" + InfrastructureStackSuffix;
    assert app.pipeline.stackId == "dev" + PipelineStackSuffix;
    NamesFollowBranchAndKey(ctx);
    assert app.pipeline.pipeline.pipelineName == "dev" + PipelineNameSuffix;
    DevNames();
  }

  lemma DevNames()
    ensures "dev." + "example.com" == "dev.example.com"
    ensures "dev" + InfrastructureStackSuffix == "dev-StaticSiteInfrastructure"
    ensures "dev" + PipelineStackSuffix == "dev-Pipeline"
    ensures "dev" + PipelineNameSuffix == "dev-pipeline"
  {
    assert "dev" + "-StaticSiteInfrastructure" == "dev-StaticSiteInfrastructure";
    assert "dev" + "-Pipeline" == "dev-Pipeline";
    assert "dev" + "-pipeline" == "dev-pipeline";
  }

  /** With owner "Acme" and branch "develop" the source bucket name is lower-cased ... */
  lemma DevSourceBucketName()
    ensures SourceBucketName("Acme", "develop") == "acme-develop-codepipeline-source-bucket"
  {
    LowerAcme();
    LowerDevelop();
    assert SourceBucketName("Acme", "develop") == "acme" + "-" + "develop" + SourceBucketSuffix;
    DevSourceBucketLiteral();
  }

  lemma DevSourceBucketLiteral()
    ensures "acme" + "-" + "develop" + SourceBucketSuffix == "acme-develop-codepipeline-source-bucket"
  {
    assert "acme" + "-" == "acme-";
    assert "acme-" + "develop" == "acme-develop";
    assert "acme-develop" + "-codepipeline-source-bucket" == "acme-develop-codepipeline-source-bucket";
  }

  /** ... and the deploy bucket name keeps the owner's capital letter. */
  lemma DevDeployBucketName()
    ensures DeployBucketName("Acme", "develop") == "Acme-develop-frontend-deploy-bucket"
  {
  }

  lemma LowerDevelop()
    ensures Lower("develop") == "develop"
  {
    LowerFixedIff("develop");
  }

  lemma LowerAcme()
    ensures Lower("Acme") == "acme"
  {
    assert forall i :: 0 <= i < 4 ==> Lower("Acme")[i] == ToLower("Acme"[i]);
  }

  /** An unknown key fails with the source's message and declares no stack. */
  lemma StagingScenario(owner: string)
    ensures Synthesize(DevContext(owner, "staging")) == Err(InvalidEnvironment)
  {
  }
}
