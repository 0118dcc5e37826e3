/**
 * The pipeline stack (lib/pipeline.ts): an execution role, a standalone build
 * project, and a three-stage pipeline (Source, Build, Deploy) whose artifacts,
 * artifact store and deploy target are the handles exposed by the
 * infrastructure stack it is given.
 *
 * The constructor is modelled as a function from the stack's props to a record
 * of what it declares.
 */
module Pipeline {
  import opened Constructs
  import opened Infrastructure

  const GitHubTokenSecret := "github-token"
  const CodeBuildService := "codebuild.amazonaws.com"
  const CodePipelineService := "codepipeline.amazonaws.com"
  const CdkRolePattern := "arn:aws:iam::*:role/cdk-*"
  const InlinePolicyName := "CdkDeployPermissions"
  const PipelineNameSuffix := "-pipeline"
  const DeployActionSuffix := "-DeployFrontend"
  const BuildProjectIdSuffix := "-sourceProject"

  datatype PipelineProps = PipelineProps(
    environment: string,
    repo: string,
    branch: string,
    owner: string,
    infrastructure: StaticSiteInfrastructure,
    env: StackEnv)

  /** A secret: a reference resolved at deploy time, or text embedded in the template. */
  datatype SecretValue = SecretsManager(secretId: string) | UnsafePlainText(text: string)

  datatype Role = Role(ref: Ref, assumedBy: seq<Principal>, inlinePolicies: map<string, seq<PolicyStatement>>)

  datatype Phase = Phase(name: string, runtimeVersions: map<string, string>, commands: seq<string>)

  datatype BuildArtifacts = BuildArtifacts(baseDirectory: string, files: string)

  datatype BuildSpec = BuildSpec(version: string, phases: seq<Phase>, artifacts: BuildArtifacts)

  /** The build image, kept as an opaque tag. */
  datatype LinuxBuildImage = AmazonLinux2_5

  datatype LocalCacheMode = SourceCache | DockerLayerCache | CustomCache

  datatype Cache = LocalCache(modes: seq<LocalCacheMode>)

  datatype PipelineProject = PipelineProject(ref: Ref, buildImage: LinuxBuildImage, buildSpec: BuildSpec, cache: Cache)

  datatype Action =
    | GitHubSourceAction(actionName: string, owner: string, repo: string, branch: string,
                         oauthToken: SecretValue, output: Artifact)
    | CodeBuildAction(actionName: string, project: Ref, input: Artifact, outputs: seq<Artifact>)
    | S3DeployAction(actionName: string, bucket: Ref, input: Artifact, extract: bool)

  datatype Stage = Stage(stageName: string, actions: seq<Action>)

  datatype CodePipeline = CodePipeline(
    ref: Ref,
    pipelineName: string,
    role: Ref,
    artifactBucket: Ref,
    stages: seq<Stage>)

  datatype PipelineStack = PipelineStack(
    stackId: string,
    props: PipelineProps,
    role: Role,
    sourceProject: PipelineProject,
    buildProject: PipelineProject,
    pipeline: CodePipeline)

  // ---------------------------------------------------------------------------
  // The constructor
  // ---------------------------------------------------------------------------

  /** The build recipe both build projects are given. */
  function FrontendBuildSpec(): BuildSpec
  {
    BuildSpec(
      "0.2",
      [ Phase("install", map["nodejs" := "20.x"], ["npm install"]),
        Phase("build", map[], ["echo Building Frontend", "npm run build"]) ],
      BuildArtifacts("dist", "**/*"))
  }

  /** `new PipelineProject(this, id, {...})` with the frontend recipe. */
  function FrontendProject(ref: Ref): PipelineProject
  {
    PipelineProject(ref, AmazonLinux2_5, FrontendBuildSpec(), LocalCache([CustomCache]))
  }

  /** `new Pipeline(scope, stackId, props)`. */
  function NewPipeline(stackId: string, props: PipelineProps): (p: PipelineStack)
    ensures p.stackId == stackId && p.props == props
  {
    var environment, infrastructure := props.environment, props.infrastructure;
    var githubToken := SecretsManager(GitHubTokenSecret);
    var role := Role(
      Ref(stackId, "PipelineRole"),
      [ServicePrincipal(CodeBuildService), ServicePrincipal(CodePipelineService)],
      map[InlinePolicyName := [PolicyStatement(Allow, ["sts:AssumeRole"], [Literal(CdkRolePattern)], [])]]);
    var sourceProject := FrontendProject(Ref(stackId, "sourceProject"));
    var buildProject := FrontendProject(Ref(stackId, environment + BuildProjectIdSuffix));
    var stages := [
      Stage("Source", [GitHubSourceAction("GitHubSource", props.owner, props.repo, props.branch,
                                          githubToken, infrastructure.sourceOutput)]),
      Stage("Build", [CodeBuildAction("Build", buildProject.ref, infrastructure.sourceOutput,
                                      [infrastructure.buildOutput])]),
      Stage("Deploy", [S3DeployAction(environment + DeployActionSuffix, infrastructure.deployBucket.ref,
                                      infrastructure.buildOutput, true)]) ];
    var pipeline := CodePipeline(
      Ref(stackId, "CIPipeline"), environment + PipelineNameSuffix, role.ref,
      infrastructure.sourceBucket.ref, stages);
    PipelineStack(stackId, props, role, sourceProject, buildProject, pipeline)
  }

  // ---------------------------------------------------------------------------
  // Artifact flow between stages
  // ---------------------------------------------------------------------------

  function ActionInputs(a: Action): seq<Artifact>
  {
    match a
    case GitHubSourceAction(_, _, _, _, _, _) => []
    case CodeBuildAction(_, _, input, _) => [input]
    case S3DeployAction(_, _, input, _) => [input]
  }

  function ActionOutputs(a: Action): seq<Artifact>
  {
    match a
    case GitHubSourceAction(_, _, _, _, _, output) => [output]
    case CodeBuildAction(_, _, _, outputs) => outputs
    case S3DeployAction(_, _, _, _) => []
  }

  /** The artifacts consumed by a stage's actions, in order. */
  function StageInputs(actions: seq<Action>): seq<Artifact>
  {
    if actions == [] then [] else ActionInputs(actions[0]) + StageInputs(actions[1..])
  }

  /** The artifacts produced by a stage's actions, in order. */
  function StageOutputs(actions: seq<Action>): seq<Artifact>
  {
    if actions == [] then [] else ActionOutputs(actions[0]) + StageOutputs(actions[1..])
  }

  /** Every artifact produced by `stages`, stage by stage. */
  function Produced(stages: seq<Stage>): seq<Artifact>
  {
    if stages == [] then []
    else Produced(stages[..|stages| - 1]) + StageOutputs(stages[|stages| - 1].actions)
  }

  /** Every artifact a stage consumes is produced by an earlier stage. */
  ghost predicate ArtifactChainWellFormed(stages: seq<Stage>)
  {
    forall k, x :: 0 <= k < |stages| && x in StageInputs(stages[k].actions) ==> x in Produced(stages[..k])
  }

  /** Every artifact a stage produces is consumed by a later stage. */
  ghost predicate NoOrphanArtifacts(stages: seq<Stage>)
  {
    forall k, x :: 0 <= k < |stages| && x in StageOutputs(stages[k].actions) ==>
      exists m :: k < m < |stages| && x in StageInputs(stages[m].actions)
  }

  /** No artifact is produced twice. */
  ghost predicate ProducedOnce(stages: seq<Stage>)
  {
    var out := Produced(stages);
    forall i, j :: 0 <= i < j < |out| ==> out[i] != out[j]
  }

  function StageNames(stages: seq<Stage>): (r: seq<string>)
    ensures |r| == |stages|
    ensures forall k :: 0 <= k < |stages| ==> r[k] == stages[k].stageName
  {
    if stages == [] then [] else [stages[0].stageName] + StageNames(stages[1..])
  }

  /** The three stages of the pipeline, Source, Build and Deploy, with their single actions. */
  lemma StagesAsDeclared(stackId: string, props: PipelineProps)
    ensures var p := NewPipeline(stackId, props); var infra := props.infrastructure;
      && StageNames(p.pipeline.stages) == ["Source", "Build", "Deploy"]
      && StageInputs(p.pipeline.stages[0].actions) == []
      && StageOutputs(p.pipeline.stages[0].actions) == [infra.sourceOutput]
      && StageInputs(p.pipeline.stages[1].actions) == [infra.sourceOutput]
      && StageOutputs(p.pipeline.stages[1].actions) == [infra.buildOutput]
      && StageInputs(p.pipeline.stages[2].actions) == [infra.buildOutput]
      && StageOutputs(p.pipeline.stages[2].actions) == []
  {
    var st := NewPipeline(stackId, props).pipeline.stages;
    assert StageNames(st[2..]) == ["Deploy"];
    assert StageNames(st[1..]) == ["Build", "Deploy"];
  }

  /** Each stage's input is the very artifact an earlier stage outputs. */
  lemma ArtifactChain(stackId: string, props: PipelineProps)
    ensures ArtifactChainWellFormed(NewPipeline(stackId, props).pipeline.stages)
  {
    var st := NewPipeline(stackId, props).pipeline.stages;
    var infra := props.infrastructure;
    StagesAsDeclared(stackId, props);
    assert st[..0] == [] && Produced(st[..0]) == [];
    assert st[..1][..0] == st[..0];
    assert Produced(st[..1]) == [infra.sourceOutput];
    assert st[..2][..1] == st[..1];
    assert Produced(st[..2]) == [infra.sourceOutput, infra.buildOutput];
  }

  /** Given two distinct artifacts, each is produced once and consumed by the next stage. */
  lemma NoOrphanedOrDuplicatedArtifacts(stackId: string, props: PipelineProps)
    requires props.infrastructure.sourceOutput != props.infrastructure.buildOutput
    ensures var st := NewPipeline(stackId, props).pipeline.stages;
      && Produced(st) == [props.infrastructure.sourceOutput, props.infrastructure.buildOutput]
      && ProducedOnce(st)
      && NoOrphanArtifacts(st)
  {
    var st := NewPipeline(stackId, props).pipeline.stages;
    var infra := props.infrastructure;
    StagesAsDeclared(stackId, props);
    assert st[..3] == st;
    assert st[..2][..1] == st[..1];
    assert st[..1][..0] == st[..0] == [];
    assert Produced(st[..1]) == [infra.sourceOutput];
    assert Produced(st[..2]) == [infra.sourceOutput, infra.buildOutput];
    assert st[..3][..2] == st[..2];
    assert Produced(st) == Produced(st[..2]) + StageOutputs(st[2].actions);
    forall k, x | 0 <= k < |st| && x in StageOutputs(st[k].actions)
      ensures exists m :: k < m < |st| && x in StageInputs(st[m].actions)
    {
      assert x in StageInputs(st[k + 1].actions);
    }
  }

  /** In a well-formed chain the first stage consumes nothing. */
  lemma FirstStageConsumesNothing(t: seq<Stage>)
    requires ArtifactChainWellFormed(t) && |t| > 0
    ensures StageInputs(t[0].actions) == []
  {
    assert t[..0] == [];
    if StageInputs(t[0].actions) != [] {
      assert StageInputs(t[0].actions)[0] in StageInputs(t[0].actions);
    }
  }

  /** In a well-formed chain the second stage consumes only what the first produced. */
  lemma SecondStageConsumesFirstOutputs(t: seq<Stage>, x: Artifact)
    requires ArtifactChainWellFormed(t) && |t| > 1
    requires x in StageInputs(t[1].actions)
    ensures x in StageOutputs(t[0].actions)
  {
    assert t[..1][..0] == [];
    assert Produced(t[..1]) == StageOutputs(t[0].actions);
  }

  /**
   * Three distinct stages where the second and third consume something and
   * the third consumes something the first does not produce can be arranged
   * into a well-formed chain in one way only.
   */
  lemma {:induction false} OnlyOneWellFormedArrangement(t: seq<Stage>, first: Stage, second: Stage, third: Stage, y: Artifact)
    requires first != second && second != third && first != third
    requires StageInputs(second.actions) != [] && StageInputs(third.actions) != []
    requires y in StageInputs(third.actions) && y !in StageOutputs(first.actions)
    requires multiset(t) == multiset([first, second, third])
    requires ArtifactChainWellFormed(t)
    ensures t == [first, second, third]
  {
    var m := multiset([first, second, third]);
    assert m == multiset{first, second, third};
    assert |t| == |multiset(t)| == 3;
    assert t == [t[0], t[1], t[2]];
    assert multiset(t) == multiset{t[0], t[1], t[2]};
    assert t[0] in m && t[1] in m && t[2] in m by {
      assert t[0] in multiset(t) && t[1] in multiset(t) && t[2] in multiset(t);
    }
    FirstStageConsumesNothing(t);
    assert t[0] == first;
    if t[1] == third {
      SecondStageConsumesFirstOutputs(t, y);
      assert false;
    }
    if t[1] == first {
      // `first` would occur twice in `t` but once in `m`.
      assert false;
    }
    assert t[1] == second;
    // `third` occurs in `m`, so it must be the stage that is left.
    assert t[2] == third;
  }

  /**
   * The declared order is the only well-formed one: any arrangement of the
   * same three stages in which every input is produced earlier is the
   * declared Source, Build, Deploy sequence.
   */
  lemma DeclaredOrderIsTheOnlyWellFormedOne(stackId: string, props: PipelineProps, t: seq<Stage>)
    requires props.infrastructure.sourceOutput != props.infrastructure.buildOutput
    requires multiset(t) == multiset(NewPipeline(stackId, props).pipeline.stages)
    requires ArtifactChainWellFormed(t)
    ensures t == NewPipeline(stackId, props).pipeline.stages
  {
    var st := NewPipeline(stackId, props).pipeline.stages;
    StagesAsDeclared(stackId, props);
    assert st == [st[0], st[1], st[2]];
    assert st[0].stageName == "Source" && st[1].stageName == "Build" && st[2].stageName == "Deploy";
    assert props.infrastructure.buildOutput in StageInputs(st[2].actions);
    OnlyOneWellFormedArrangement(t, st[0], st[1], st[2], props.infrastructure.buildOutput);
  }

  // ---------------------------------------------------------------------------
  // Bindings, role and build recipe
  // ---------------------------------------------------------------------------

  /**
   * The pipeline is named after the environment, stores artifacts in the
   * infrastructure's source bucket, and deploys, extracted, into its deploy bucket.
   */
  lemma BindingsToInfrastructure(stackId: string, props: PipelineProps)
    ensures var p := NewPipeline(stackId, props); var infra := props.infrastructure;
      && p.pipeline.pipelineName == props.environment + PipelineNameSuffix
      && p.pipeline.artifactBucket == infra.sourceBucket.ref
      && p.pipeline.role == p.role.ref
      && p.pipeline.stages[2].actions ==
           [S3DeployAction(props.environment + DeployActionSuffix, infra.deployBucket.ref, infra.buildOutput, true)]
  {
  }

  /** The source action reads the owner's repository at the given branch, authenticated by a secret reference. */
  lemma SourceActionUsesSecretReference(stackId: string, props: PipelineProps)
    ensures var a := NewPipeline(stackId, props).pipeline.stages[0].actions;
      && |a| == 1 && a[0].GitHubSourceAction?
      && a[0].owner == props.owner && a[0].repo == props.repo && a[0].branch == props.branch
      && a[0].oauthToken == SecretsManager(GitHubTokenSecret)
      && !a[0].oauthToken.UnsafePlainText?
  {
  }

  /** The role is trusted by CodeBuild and CodePipeline and may only assume CDK deployment roles. */
  lemma RoleTrustAndPolicy(stackId: string, props: PipelineProps)
    ensures var r := NewPipeline(stackId, props).role;
      && r.assumedBy == [ServicePrincipal(CodeBuildService), ServicePrincipal(CodePipelineService)]
      && r.inlinePolicies.Keys == {InlinePolicyName}
      && r.inlinePolicies[InlinePolicyName] ==
           [PolicyStatement(Allow, ["sts:AssumeRole"], [Literal(CdkRolePattern)], [])]
  {
  }

  /**
   * Both build projects carry the same recipe: install (Node.js 20, `npm install`)
   * before build, with the output taken from every file under "dist".
   */
  lemma BuildSpecShape(stackId: string, props: PipelineProps)
    ensures var p := NewPipeline(stackId, props); var spec := p.buildProject.buildSpec;
      && p.sourceProject.buildSpec == spec
      && p.pipeline.stages[1].actions[0].project == p.buildProject.ref
      && spec.version == "0.2"
      && |spec.phases| == 2
      && spec.phases[0].name == "install" && spec.phases[1].name == "build"
      && spec.phases[0].runtimeVersions == map["nodejs" := "20.x"]
      && spec.phases[0].commands == ["npm install"]
      && spec.phases[1].commands == ["echo Building Frontend", "npm run build"]
      && spec.artifacts == BuildArtifacts("dist", "**/*")
  {
  }

  // ---------------------------------------------------------------------------
  // The declaration graph of the stack
  // ---------------------------------------------------------------------------

  /** The constructs an action refers to. */
  function ActionEdges(a: Action): seq<Edge>
  {
    match a
    case GitHubSourceAction(_, _, _, _, _, _) => []
    case CodeBuildAction(_, project, _, _) => [Edge(project, ProjectKind)]
    case S3DeployAction(_, bucket, _, _) => [Edge(bucket, BucketKind)]
  }

  function ActionsEdges(actions: seq<Action>): seq<Edge>
  {
    if actions == [] then [] else ActionEdges(actions[0]) + ActionsEdges(actions[1..])
  }

  function StagesEdges(stages: seq<Stage>): seq<Edge>
  {
    if stages == [] then [] else ActionsEdges(stages[0].actions) + StagesEdges(stages[1..])
  }

  /**
   * The stack's resources in declaration order.  The build project is declared
   * while the pipeline's props are evaluated, so before the pipeline itself.
   */
  function PipelineDeclarations(p: PipelineStack): seq<Decl>
  {
    [ Decl(p.role.ref, RoleKind, []),
      Decl(p.sourceProject.ref, ProjectKind, []),
      Decl(p.buildProject.ref, ProjectKind, []),
      Decl(p.pipeline.ref, PipelineKind,
           [Edge(p.pipeline.role, RoleKind), Edge(p.pipeline.artifactBucket, BucketKind)]
           + StagesEdges(p.pipeline.stages)) ]
  }

  /** The pipeline refers to its role, the infrastructure's source bucket, its build project and the deploy bucket. */
  lemma PipelineEdges(stackId: string, props: PipelineProps)
    ensures var p := NewPipeline(stackId, props); var infra := props.infrastructure;
      PipelineDeclarations(p)[3].uses ==
        [ Edge(p.role.ref, RoleKind), Edge(infra.sourceBucket.ref, BucketKind),
          Edge(p.buildProject.ref, ProjectKind), Edge(infra.deployBucket.ref, BucketKind) ]
  {
    var p := NewPipeline(stackId, props);
    var st := p.pipeline.stages;
    assert st[0].actions[1..] == [] && st[1].actions[1..] == [] && st[2].actions[1..] == [];
    assert ActionsEdges(st[0].actions) == [];
    assert ActionsEdges(st[1].actions) == [Edge(p.buildProject.ref, ProjectKind)];
    assert ActionsEdges(st[2].actions) == [Edge(props.infrastructure.deployBucket.ref, BucketKind)];
    assert st[2..][1..] == st[3..] == [];
    assert st[1..][1..] == st[2..];
    assert StagesEdges(st[2..]) == [Edge(props.infrastructure.deployBucket.ref, BucketKind)];
    assert StagesEdges(st[1..]) == [Edge(p.buildProject.ref, ProjectKind)] + StagesEdges(st[2..]);
  }

  /**
   * Declared after a constructed infrastructure stack, every reference of the
   * pipeline stack resolves: to its own role and build project, declared
   * before the pipeline, and to the two buckets of the infrastructure stack.
   */
  lemma CrossStackReferencesResolve(stackId: string, props: PipelineProps)
    requires Constructed(props.infrastructure)
    ensures ReferencesResolveBackward(
      InfrastructureDeclarations(props.infrastructure) + PipelineDeclarations(NewPipeline(stackId, props)))
  {
    var infra := props.infrastructure;
    var a := InfrastructureDeclarations(infra);
    var p := NewPipeline(stackId, props);
    var b := PipelineDeclarations(p);
    InfrastructureReferencesResolve(infra.stackId, infra.props);
    PipelineEdges(stackId, props);
    forall i, e | 0 <= i < |b| && e in b[i].uses
      ensures DeclaredBefore(a, e, |a|) || DeclaredBefore(b, e, i)
    {
      assert i == 3;
      if e.kind == RoleKind {
        DeclaredAt(b, e, 3, 0);
      } else if e.kind == ProjectKind {
        DeclaredAt(b, e, 3, 2);
      } else if e.target == infra.sourceBucket.ref {
        DeclaredAt(a, e, |a|, 3);
      } else {
        DeclaredAt(a, e, |a|, 4);
      }
    }
    ConcatResolvesBackward(a, b);
  }

  /** The construct ids of the pipeline stack never collide, whatever the environment. */
  lemma PipelineRefsDistinct(stackId: string, props: PipelineProps)
    ensures var d := PipelineDeclarations(NewPipeline(stackId, props));
      DistinctRefs(d) && AllIn(d, stackId)
  {
    var d := PipelineDeclarations(NewPipeline(stackId, props));
    var ids := ["PipelineRole", "sourceProject", props.environment + BuildProjectIdSuffix, "CIPipeline"];
    assert d[0].ref == Ref(stackId, ids[0]) && d[1].ref == Ref(stackId, ids[1]);
    assert d[2].ref == Ref(stackId, ids[2]) && d[3].ref == Ref(stackId, ids[3]);
    assert forall k :: 0 <= k < |d| ==> d[k].ref == Ref(stackId, ids[k]);
    assert NoDuplicates(ids) by {
      assert |ids[2]| > |ids[0]| && |ids[2]| > |ids[1]| && |ids[2]| > |ids[3]|;
      assert ids[0][0] != ids[1][0] && ids[0][0] != ids[3][0] && ids[1][0] != ids[3][0];
    }
    DistinctIdsDistinctRefs(d, stackId, ids);
  }
}
