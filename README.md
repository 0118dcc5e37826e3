# Static-site CI/CD stacks: a verified model of the composition core

This project models, in Dafny, the decision logic and wiring of a CDK
application that deploys a static website as two stacks:

- the **entry point** (`bin/app.ts`) checks the requested environment key
  against the configured environments, reads that key's branch and
  subdomain, builds the domain name and the two stack ids, and declares
  both stacks;
- the **infrastructure stack** (`lib/static-site-infrastructure.ts`)
  declares a hosted zone, a certificate DNS-validated against that zone,
  an origin access identity, a source bucket, a public deploy bucket and
  its bucket policy, a CloudFront distribution and an alias record. It
  exposes two pipeline artifacts and the two buckets;
- the **pipeline stack** (`lib/pipeline.ts`) declares an execution role, a
  build project and a three-stage pipeline (Source, Build, Deploy). The
  pipeline's artifacts, artifact store and deploy target are the handles
  the infrastructure stack exposes.

Each constructor is a function from its props to a record of declarations.
A declaration names every resource it refers to by identity: a `Ref` is a
stack id plus a construct id. An `Artifact` is the artifact object held by
one field of one infrastructure stack. The process environment and the CDK
context become one `Context` value. The thrown "Please provide a valid
environment" error becomes an `Err` result, which holds no stack.

Files, one module each: `ascii.dfy` (ASCII lower-casing), `constructs.dfy`
(identities, principals, policy statements, the declaration graph),
`infrastructure.dfy`, `pipeline.dfy`, `app.dfy`.

Where the code and a plain-language description of the system differ, the
model follows the code:

- Bucket names are built from the **branch**, not from the environment key.
  `bin/app.ts:37` passes `branch` as the infrastructure stack's
  `environment`, while `bin/app.ts:45` passes the key to the pipeline stack.
  So two keys that share a branch get the same bucket names
  (`App.SharedBranchSharesBucketNames`).
- The distribution's origin is `S3StaticWebsiteOrigin`, which reads the
  bucket's website endpoint. The origin access identity is granted read on
  the deploy bucket, but the distribution does not use it.
- Nothing at run time checks the pipeline's stage graph. Its
  well-formedness is a lemma about the constructed value, not an error path.

## Model

| member | source | states |
|---|---|---|
| `App.Resolve` | bin/app.ts:25-31 | Fails with "Please provide a valid environment" exactly when the key is not configured. Otherwise the branch and subdomain are that key's entry, and the domain name is the subdomain followed directly by the domain, with no separator. |
| `App.Region` | bin/app.ts:10 | The region is the supplied default when set and non-empty, otherwise "us-east-1" (JavaScript `\|\|`). It is never empty. |
| `App.InfrastructureStackId` | bin/app.ts:35 | The id is the key followed by "-StaticSiteInfrastructure". |
| `App.PipelineStackId` | bin/app.ts:44 | The id is the key followed by "-Pipeline". |
| `App.StackIdsDistinct` | bin/app.ts:35-44 | Two keys get equal stack ids exactly when they are the same key. No infrastructure stack id equals any pipeline stack id. |
| `App.Synthesize` | bin/app.ts:25-51 | Fails, with no stack built, exactly when the key is unknown. Otherwise the infrastructure stack gets the branch as its environment and the pipeline stack gets the key. Both stacks get the same owner and env. The pipeline stack receives the very infrastructure value that was built. |
| `App.NamesFollowBranchAndKey` | bin/app.ts:33-51 | Bucket names come from the owner and the branch. The pipeline name and the deploy action name come from the key. |
| `App.SharedBranchSharesBucketNames` | bin/app.ts:33-42 | Two different keys with the same branch and owner get distinct stacks but identical source and deploy bucket names. |
| `App.PipelineUsesInfrastructureHandles` | lib/pipeline.ts:83-150 | End to end: the two artifacts are distinct, and they are the ones the stages produce and consume. The artifact store is the infrastructure's source bucket. Deploy extracts into its deploy bucket. The chain is well formed, has no orphan, and produces no artifact twice. |
| `App.AppDeclarationsWellFormed` | bin/app.ts:33-51 | Across both stacks, declared in order, every reference names an earlier resource of the right kind, and no two resources share an identity. |
| `App.DevScenario` | bin/app.ts:29-51 | For the single environment "dev" (subdomain "dev.", branch "develop", domain "example.com"), the model gives domain "dev.example.com", stacks "dev-StaticSiteInfrastructure" and "dev-Pipeline", pipeline "dev-pipeline", environment "develop" and region "us-east-1". |
| `App.StagingScenario` | bin/app.ts:25-27 | The key "staging" against that configuration fails with the source's message. |
| `App.DevSourceBucketName` | lib/static-site-infrastructure.ts:56-58 | Owner "Acme" with branch "develop" gives "acme-develop-codepipeline-source-bucket". |
| `App.DevDeployBucketName` | lib/static-site-infrastructure.ts:67 | Owner "Acme" with branch "develop" gives "Acme-develop-frontend-deploy-bucket", case kept. |
| `Ascii.ToLower` | lib/static-site-infrastructure.ts:58 | Maps 'A'..'Z' to 'a'..'z' and leaves every other character unchanged. The result is never upper-case. |
| `Ascii.Lower` | lib/static-site-infrastructure.ts:58 | Keeps the length and lower-cases character by character. The result has no upper-case letter. |
| `Ascii.LowerIdempotent` | lib/static-site-infrastructure.ts:58 | Lower-casing twice is the same as lower-casing once. |
| `Ascii.LowerFixedIff` | lib/static-site-infrastructure.ts:58 | Lower-casing leaves a string unchanged exactly when it has no upper-case letter. |
| `Ascii.LowerConcat` | lib/static-site-infrastructure.ts:58 | Lower-casing distributes over concatenation. |
| `Constructs.ConcatResolvesBackward` | bin/app.ts:33-51 | A later batch of declarations whose references resolve into an earlier batch, or into itself, keeps the whole sequence resolvable. |
| `Constructs.ConcatDistinct` | bin/app.ts:33-51 | Batches from two different stacks, each free of duplicates, stay free of duplicates together. |
| `Infrastructure.SourceBucketName` | lib/static-site-infrastructure.ts:56-58 | The name is the lower-cased owner, "-", the lower-cased environment, then "-codepipeline-source-bucket". It has no upper-case letter, and lower-casing it again changes nothing. |
| `Infrastructure.DeployBucketName` | lib/static-site-infrastructure.ts:67 | The owner, "-", the environment and "-frontend-deploy-bucket" appear verbatim, with case kept. The name is free of upper case exactly when owner and environment are. |
| `Infrastructure.DeployBucketId` | lib/static-site-infrastructure.ts:65 | The construct id is the environment followed by "-FrontendDeployBucket". |
| `Infrastructure.GrantRead` | lib/static-site-infrastructure.ts:76 | The principal is appended to the bucket's readers. Nothing else changes. |
| `Infrastructure.AddStatements` | lib/static-site-infrastructure.ts:82-88 | The statements are appended to the policy document. Nothing else changes. |
| `Infrastructure.NewStaticSiteInfrastructure` | lib/static-site-infrastructure.ts:37-104 | The stack keeps its id and props. What it declares is stated by the lemmas below. |
| `Infrastructure.ArtifactHandles` | lib/static-site-infrastructure.ts:32-33 | The stack owns two distinct artifacts, "sourceOutput" and "buildOutput". |
| `Infrastructure.BucketNaming` | lib/static-site-infrastructure.ts:56-67 | The source bucket name is lower-cased and the deploy bucket name keeps its case. The deploy bucket's id is the environment followed by "-FrontendDeployBucket". |
| `Infrastructure.CertificateValidatedAgainstDeclaredZone` | lib/static-site-infrastructure.ts:42-49 | The zone is named after the domain. The certificate is for the same domain and is DNS-validated against that very zone. |
| `Infrastructure.DistributionWiring` | lib/static-site-infrastructure.ts:90-99 | The origin is the deploy bucket. The alternate names are exactly [domainName]. The certificate is the declared one. The root object is "index.html", viewers are redirected to HTTPS, and caching uses the optimized policy. |
| `Infrastructure.RecordAliasesDistribution` | lib/static-site-infrastructure.ts:101-104 | The A record is in the declared zone and aliases the declared distribution. |
| `Infrastructure.DeployBucketAccessPosture` | lib/static-site-infrastructure.ts:63-88 | The website documents are "index.html" and "error.html". Public read is on, and the access block covers ACLs only, so policy-based public read is allowed. The origin access identity is the bucket's one reader. The bucket policy is exactly one Allow of s3:GetObject on the bucket's ARN followed by "/*", for any principal. |
| `Infrastructure.BucketsDestroyedWithStack` | lib/static-site-infrastructure.ts:56-69 | Both buckets are destroyed with the stack, objects included. The source bucket is neither public nor a website. |
| `Infrastructure.ConstructIdsDistinct` | lib/static-site-infrastructure.ts:42-104 | The eight construct ids differ for every environment. |
| `Infrastructure.InfrastructureReferencesResolve` | lib/static-site-infrastructure.ts:42-104 | Every reference points back to an earlier resource of the right kind: zone then certificate, identity then deploy bucket, bucket and certificate then distribution, zone and distribution then A record. |
| `Infrastructure.InfrastructureRefsDistinct` | lib/static-site-infrastructure.ts:42-104 | All declarations are in the stack and no two share an identity. |
| `Pipeline.NewPipeline` | lib/pipeline.ts:34-152 | The stack keeps its id and props. What it declares is stated by the lemmas below. |
| `Pipeline.StagesAsDeclared` | lib/pipeline.ts:87-150 | The stages are exactly "Source", "Build", "Deploy", in that order. Source outputs the source artifact. Build consumes it and outputs the build artifact. Deploy consumes that and outputs nothing. |
| `Pipeline.ArtifactChain` | lib/pipeline.ts:97-145 | Every stage input is an output of an earlier stage. |
| `Pipeline.NoOrphanedOrDuplicatedArtifacts` | lib/pipeline.ts:97-145 | With two distinct artifacts, the pipeline produces exactly [source, build], none twice, and each is consumed by a later stage. |
| `Pipeline.OnlyOneWellFormedArrangement` | lib/pipeline.ts:87-150 | Three distinct stages, where the last needs something the first does not make, have exactly one well-formed order. |
| `Pipeline.DeclaredOrderIsTheOnlyWellFormedOne` | lib/pipeline.ts:87-150 | Every reordering of the three stages breaks the artifact chain. Only Source, Build, Deploy keeps it. |
| `Pipeline.BindingsToInfrastructure` | lib/pipeline.ts:84-147 | The pipeline is named environment followed by "-pipeline". It uses the declared role and stores artifacts in the infrastructure's source bucket. Its deploy action, named environment followed by "-DeployFrontend", extracts the build artifact into the infrastructure's deploy bucket. |
| `Pipeline.SourceActionUsesSecretReference` | lib/pipeline.ts:39-97 | The one source action uses the props' owner, repo and branch. Its token is the secrets-manager reference "github-token", never plain text. |
| `Pipeline.RoleTrustAndPolicy` | lib/pipeline.ts:41-56 | The role is trusted by codebuild.amazonaws.com and codepipeline.amazonaws.com. Its single inline policy holds one statement: allow sts:AssumeRole on arn:aws:iam::*:role/cdk-*. |
| `Pipeline.BuildSpecShape` | lib/pipeline.ts:58-135 | Both projects carry the same recipe, and Build runs the inline project. The recipe is version 0.2: install (nodejs 20.x, `npm install`) before build. The artifacts are "**/*" under "dist". |
| `Pipeline.PipelineEdges` | lib/pipeline.ts:83-147 | The pipeline refers to exactly: its role, the infrastructure's source bucket, its build project and the infrastructure's deploy bucket. |
| `Pipeline.CrossStackReferencesResolve` | lib/pipeline.ts:83-147 | Declared after a constructed infrastructure stack, every reference of the pipeline stack resolves to an earlier resource of the right kind. |
| `Pipeline.PipelineRefsDistinct` | lib/pipeline.ts:41-108 | The four construct ids of the pipeline stack differ for every environment. |

## Left out

- Reading the process environment and the CDK context (bin/app.ts:8-23): the values are fields of `Context`. A context value that is missing is not modelled, and neither is the TypeError a missing "environments" object would raise.
- `source-map-support` (bin/app.ts:2): it has no effect on what is declared.
- `Object.keys(...).includes` is modelled as map membership. Keys inherited through the prototype are not modelled.
- Everything the CDK and AWS do with the declarations: synthesis to a template, provisioning order, DNS registration, certificate issuance, CloudFront caching, CodeBuild runs and S3 extraction. These are library and service behaviour not visible in this code. Build images, cache modes and cache policies are opaque tags.
- Infrastructure.GrantRead: records the identity as a reader. The IAM statements the CDK generates for it are not modelled, and neither is the statement behind `publicReadAccess`.
- The construct tree's own duplicate-id error is not modelled. Instead, lemmas prove the ids never collide.
- `grantRead` and `addStatements` change objects in place. They are modelled as value updates applied before the record is returned. Nothing reads those objects between the creation and the update in the source, so no observable state is lost.
- Resolving the "github-token" secret at deploy time (lib/pipeline.ts:39): the token is an opaque named reference.
- The commented-out NS delegation for a "dev" sub-zone (lib/static-site-infrastructure.ts:106-121): it is dead code.
- `toLowerCase` on non-ASCII characters: only ASCII letters are lower-cased.
