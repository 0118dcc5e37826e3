/**
 * The infrastructure stack of the static site (lib/static-site-infrastructure.ts):
 * a hosted zone, a DNS-validated certificate, an origin access identity, the
 * pipeline's source bucket, the public deploy bucket and its policy, a CDN
 * distribution in front of the deploy bucket and an alias record for it, plus
 * the two pipeline artifacts the stack exposes.
 *
 * The constructor is modelled as a function from the stack's props to a record
 * of the declarations it makes; everything it refers to is named by identity.
 */
module Infrastructure {
  import opened Constructs
  import opened Ascii

  const SourceBucketSuffix := "-codepipeline-source-bucket"
  const DeployBucketSuffix := "-frontend-deploy-bucket"
  const DeployBucketIdSuffix := "-FrontendDeployBucket"
  const IndexDocument := "index.html"
  const ErrorDocument := "error.html"

  datatype InfrastructureProps = InfrastructureProps(
    environment: string,
    domainName: string,
    owner: string,
    env: StackEnv)

  /** A pipeline artifact object, held by field `name` of the stack `stack`. */
  datatype Artifact = Artifact(stack: string, name: string)

  datatype RemovalPolicy = Destroy | Retain

  /** The four switches of an S3 public access block. */
  datatype BlockPublicAccess = BlockPublicAccess(
    blockPublicAcls: bool,
    ignorePublicAcls: bool,
    blockPublicPolicy: bool,
    restrictPublicBuckets: bool)

  /** `BlockPublicAccess.BLOCK_ACLS`: blocks and ignores public ACLs, leaves policies alone. */
  const BlockAcls := BlockPublicAccess(true, true, false, false)

  datatype HostedZone = HostedZone(ref: Ref, zoneName: string)

  datatype CertificateValidation = DnsValidation(zone: Ref)

  datatype Certificate = Certificate(ref: Ref, domainName: string, validation: CertificateValidation)

  datatype OriginAccessIdentity = OriginAccessIdentity(ref: Ref)

  datatype Bucket = Bucket(
    ref: Ref,
    bucketName: string,
    removalPolicy: RemovalPolicy,
    autoDeleteObjects: bool,
    websiteIndexDocument: Option<string>,
    websiteErrorDocument: Option<string>,
    publicReadAccess: bool,
    blockPublicAccess: Option<BlockPublicAccess>,
    readers: seq<Principal>)

  datatype BucketPolicy = BucketPolicy(ref: Ref, bucket: Ref, document: seq<PolicyStatement>)

  datatype Origin = S3StaticWebsiteOrigin(bucket: Ref)

  datatype ViewerProtocolPolicy = AllowAll | HttpsOnly | RedirectToHttps

  /** The managed cache policy, kept as an opaque tag. */
  datatype CachePolicy = CachingOptimized | CachingDisabled

  datatype Distribution = Distribution(
    ref: Ref,
    defaultRootObject: string,
    origin: Origin,
    viewerProtocolPolicy: ViewerProtocolPolicy,
    cachePolicy: CachePolicy,
    domainNames: seq<string>,
    certificate: Ref)

  datatype RecordTarget = CloudFrontTarget(distribution: Ref)

  datatype ARecord = ARecord(ref: Ref, zone: Ref, target: RecordTarget)

  datatype StaticSiteInfrastructure = StaticSiteInfrastructure(
    stackId: string,
    props: InfrastructureProps,
    sourceOutput: Artifact,
    buildOutput: Artifact,
    hostedZone: HostedZone,
    certificate: Certificate,
    originAccessIdentity: OriginAccessIdentity,
    sourceBucket: Bucket,
    deployBucket: Bucket,
    bucketPolicy: BucketPolicy,
    distribution: Distribution,
    aRecord: ARecord)

  // ---------------------------------------------------------------------------
  // Naming
  // ---------------------------------------------------------------------------

  /**
   * The source bucket's name, `${owner}-${environment}-codepipeline-source-bucket`
   * lower-cased: the lower-cased owner and environment joined by the fixed parts.
   */
  function SourceBucketName(owner: string, environment: string): (r: string)
    ensures r == Lower(owner) + "-" + Lower(environment) + SourceBucketSuffix
    ensures NoUpper(r) && Lower(r) == r
  {
    SourceBucketNameParts(owner, environment);
    Lower(owner + "-" + environment + SourceBucketSuffix)
  }

  lemma SourceBucketNameParts(owner: string, environment: string)
    ensures Lower(owner + "-" + environment + SourceBucketSuffix)
         == Lower(owner) + "-" + Lower(environment) + SourceBucketSuffix
  {
    assert NoUpper("-");
    assert NoUpper(SourceBucketSuffix);
    LowerFixedIff("-");
    LowerFixedIff(SourceBucketSuffix);
    LowerConcat(owner + "-" + environment, SourceBucketSuffix);
    LowerConcat(owner + "-", environment);
    LowerConcat(owner, "-");
  }

  /**
   * The deploy bucket's name, `${owner}-${environment}-frontend-deploy-bucket`,
   * case preserved: owner and environment appear verbatim, so the name is
   * free of upper case exactly when they are.
   */
  function DeployBucketName(owner: string, environment: string): (r: string)
    ensures |r| == |owner| + 1 + |environment| + |DeployBucketSuffix|
    ensures r[..|owner|] == owner && r[|owner|] == '-'
    ensures r[|owner| + 1..|owner| + 1 + |environment|] == environment
    ensures r[|owner| + 1 + |environment|..] == DeployBucketSuffix
    ensures NoUpper(r) <==> NoUpper(owner) && NoUpper(environment)
  {
    var name := owner + "-" + environment + DeployBucketSuffix;
    assert name[..|owner|] == owner;
    assert name[|owner| + 1..|owner| + 1 + |environment|] == environment;
    assert name[|owner| + 1 + |environment|..] == DeployBucketSuffix;
    assert NoUpper(DeployBucketSuffix);
    assert forall i :: 0 <= i < |owner| ==> name[i] == owner[i];
    assert forall i :: 0 <= i < |environment| ==> name[|owner| + 1 + i] == environment[i];
    name
  }

  /** The deploy bucket's construct id, `${environment}-FrontendDeployBucket`. */
  function DeployBucketId(environment: string): (r: string)
    ensures |r| == |environment| + |DeployBucketIdSuffix|
    ensures r[..|environment|] == environment && r[|environment|..] == DeployBucketIdSuffix
  {
    environment + DeployBucketIdSuffix
  }

  // ---------------------------------------------------------------------------
  // In-place updates made by the constructor, as value updates
  // ---------------------------------------------------------------------------

  /** `bucket.grantRead(principal)`: the principal joins the bucket's readers; nothing else changes. */
  function GrantRead(b: Bucket, principal: Principal): (r: Bucket)
    ensures r.readers == b.readers + [principal]
    ensures r.(readers := b.readers) == b
  {
    b.(readers := b.readers + [principal])
  }

  /** `policy.document.addStatements(...)`: the statements go after the existing ones; nothing else changes. */
  function AddStatements(p: BucketPolicy, statements: seq<PolicyStatement>): (r: BucketPolicy)
    ensures r.document == p.document + statements
    ensures r.(document := p.document) == p
  {
    p.(document := p.document + statements)
  }

  // ---------------------------------------------------------------------------
  // The constructor
  // ---------------------------------------------------------------------------

  /** `new StaticSiteInfrastructure(scope, stackId, props)`. */
  function NewStaticSiteInfrastructure(stackId: string, props: InfrastructureProps): (s: StaticSiteInfrastructure)
    ensures s.stackId == stackId && s.props == props
  {
    var environment, domainName, owner := props.environment, props.domainName, props.owner;
    var hostedZone := HostedZone(Ref(stackId, "HostedZone"), domainName);
    var certificate := Certificate(Ref(stackId, "Certificate"), domainName, DnsValidation(hostedZone.ref));
    var originAccessIdentity := OriginAccessIdentity(Ref(stackId, "OriginAccessIdentity"));
    var sourceBucket := Bucket(
      Ref(stackId, "SourceBucket"), SourceBucketName(owner, environment), Destroy, true,
      None, None, false, None, []);
    var declaredDeployBucket := Bucket(
      Ref(stackId, DeployBucketId(environment)), DeployBucketName(owner, environment), Destroy, true,
      Some(IndexDocument), Some(ErrorDocument), true, Some(BlockAcls), []);
    var deployBucket := GrantRead(declaredDeployBucket, IdentityPrincipal(originAccessIdentity.ref));
    var bucketPolicy := AddStatements(
      BucketPolicy(Ref(stackId, "BucketPolicy"), deployBucket.ref, []),
      [PolicyStatement(Allow, ["s3:GetObject"], [TokenThen(BucketArn(deployBucket.ref), "/*")], [AnyPrincipal])]);
    var distribution := Distribution(
      Ref(stackId, "Distribution"), IndexDocument, S3StaticWebsiteOrigin(deployBucket.ref),
      RedirectToHttps, CachingOptimized, [domainName], certificate.ref);
    var aRecord := ARecord(Ref(stackId, "ARecord"), hostedZone.ref, CloudFrontTarget(distribution.ref));
    var s := StaticSiteInfrastructure(
      stackId, props, Artifact(stackId, "sourceOutput"), Artifact(stackId, "buildOutput"),
      hostedZone, certificate, originAccessIdentity, sourceBucket, deployBucket, bucketPolicy,
      distribution, aRecord);
    s
  }

  /** `s` is a value the constructor can produce: the stack instances the pipeline stack accepts. */
  ghost predicate Constructed(s: StaticSiteInfrastructure)
  {
    s == NewStaticSiteInfrastructure(s.stackId, s.props)
  }

  // ---------------------------------------------------------------------------
  // The declaration graph of the stack
  // ---------------------------------------------------------------------------

  /** The stack's resources in declaration order, each with the references it makes. */
  function InfrastructureDeclarations(s: StaticSiteInfrastructure): seq<Decl>
  {
    [ Decl(s.hostedZone.ref, ZoneKind, []),
      Decl(s.certificate.ref, CertificateKind, [Edge(s.certificate.validation.zone, ZoneKind)]),
      Decl(s.originAccessIdentity.ref, IdentityKind, []),
      Decl(s.sourceBucket.ref, BucketKind, ReaderEdges(s.sourceBucket.readers)),
      Decl(s.deployBucket.ref, BucketKind, ReaderEdges(s.deployBucket.readers)),
      Decl(s.bucketPolicy.ref, BucketPolicyKind, [Edge(s.bucketPolicy.bucket, BucketKind)]),
      Decl(s.distribution.ref, DistributionKind,
           [Edge(s.distribution.origin.bucket, BucketKind), Edge(s.distribution.certificate, CertificateKind)]),
      Decl(s.aRecord.ref, RecordKind,
           [Edge(s.aRecord.zone, ZoneKind), Edge(s.aRecord.target.distribution, DistributionKind)]) ]
  }

  /** A bucket refers to every access identity it granted read to. */
  function ReaderEdges(readers: seq<Principal>): seq<Edge>
  {
    if readers == [] then []
    else (match readers[0]
          case IdentityPrincipal(id) => [Edge(id, IdentityKind)]
          case _ => []) + ReaderEdges(readers[1..])
  }

  /**
   * Every reference the stack makes names a resource of the right kind declared
   * before it: zone before certificate, identity before the deploy bucket that
   * grants it read, bucket and certificate before the distribution, zone and
   * distribution before the alias record.
   */
  lemma InfrastructureReferencesResolve(stackId: string, props: InfrastructureProps)
    ensures ReferencesResolveBackward(InfrastructureDeclarations(NewStaticSiteInfrastructure(stackId, props)))
  {
    var s := NewStaticSiteInfrastructure(stackId, props);
    var d := InfrastructureDeclarations(s);
    assert ReaderEdges(s.sourceBucket.readers) == [];
    assert ReaderEdges(s.deployBucket.readers) == [Edge(s.originAccessIdentity.ref, IdentityKind)];
    forall i, e | 0 <= i < |d| && e in d[i].uses
      ensures DeclaredBefore(d, e, i)
    {
      if i == 1 {
        DeclaredAt(d, e, 1, 0);
      } else if i == 4 {
        DeclaredAt(d, e, 4, 2);
      } else if i == 5 {
        DeclaredAt(d, e, 5, 4);
      } else if i == 6 {
        if e.kind == BucketKind { DeclaredAt(d, e, 6, 4); } else { DeclaredAt(d, e, 6, 1); }
      } else if i == 7 {
        if e.kind == ZoneKind { DeclaredAt(d, e, 7, 0); } else { DeclaredAt(d, e, 7, 6); }
      }
    }
  }

  /** The construct ids the constructor uses never collide, whatever the environment. */
  lemma {:induction false} ConstructIdsDistinct(environment: string)
    ensures NoDuplicates(["HostedZone", "Certificate", "OriginAccessIdentity", "SourceBucket",
                          DeployBucketId(environment), "BucketPolicy", "Distribution", "ARecord"])
  {
    var ids := ["HostedZone", "Certificate", "OriginAccessIdentity", "SourceBucket",
                DeployBucketId(environment), "BucketPolicy", "Distribution", "ARecord"];
    forall i, j | 0 <= i < j < |ids|
      ensures ids[i] != ids[j]
    {
      if i == 4 || j == 4 {
        assert |ids[i]| != |ids[j]|;
      } else {
        assert ids[i][0] != ids[j][0];
      }
    }
  }

  /** The stack's declarations all live in the stack and no two share a construct id. */
  lemma InfrastructureRefsDistinct(stackId: string, props: InfrastructureProps)
    ensures var d := InfrastructureDeclarations(NewStaticSiteInfrastructure(stackId, props));
      DistinctRefs(d) && AllIn(d, stackId)
  {
    var s := NewStaticSiteInfrastructure(stackId, props);
    var d := InfrastructureDeclarations(s);
    var ids := ["HostedZone", "Certificate", "OriginAccessIdentity", "SourceBucket",
                DeployBucketId(props.environment), "BucketPolicy", "Distribution", "ARecord"];
    assert d[0].ref == Ref(stackId, ids[0]) && d[1].ref == Ref(stackId, ids[1]);
    assert d[2].ref == Ref(stackId, ids[2]) && d[3].ref == Ref(stackId, ids[3]);
    assert d[4].ref == Ref(stackId, ids[4]) && d[5].ref == Ref(stackId, ids[5]);
    assert d[6].ref == Ref(stackId, ids[6]) && d[7].ref == Ref(stackId, ids[7]);
    assert forall k :: 0 <= k < |d| ==> d[k].ref == Ref(stackId, ids[k]);
    ConstructIdsDistinct(props.environment);
    DistinctIdsDistinctRefs(d, stackId, ids);
  }

  // ---------------------------------------------------------------------------
  // What the constructed stack declares
  // ---------------------------------------------------------------------------

  /** The stack exposes two distinct artifacts, "sourceOutput" and "buildOutput", owned by the stack. */
  lemma ArtifactHandles(stackId: string, props: InfrastructureProps)
    ensures var s := NewStaticSiteInfrastructure(stackId, props);
      && s.sourceOutput.name == "sourceOutput" && s.buildOutput.name == "buildOutput"
      && s.sourceOutput.stack == stackId && s.buildOutput.stack == stackId
      && s.sourceOutput != s.buildOutput
  {
  }

  /** Both bucket names follow the owner and environment the stack is given, each with its own casing rule. */
  lemma BucketNaming(stackId: string, props: InfrastructureProps)
    ensures var s := NewStaticSiteInfrastructure(stackId, props);
      && s.sourceBucket.bucketName == Lower(props.owner) + "-" + Lower(props.environment) + SourceBucketSuffix
      && NoUpper(s.sourceBucket.bucketName)
      && s.deployBucket.bucketName == props.owner + "-" + props.environment + DeployBucketSuffix
      && s.deployBucket.ref.id == props.environment + DeployBucketIdSuffix
      && s.sourceBucket.ref.id == "SourceBucket"
  {
  }

  /** The zone is for the domain, and the certificate for the same domain is DNS-validated against that very zone. */
  lemma CertificateValidatedAgainstDeclaredZone(stackId: string, props: InfrastructureProps)
    ensures var s := NewStaticSiteInfrastructure(stackId, props);
      && s.hostedZone.zoneName == props.domainName
      && s.certificate.domainName == props.domainName
      && s.certificate.validation == DnsValidation(s.hostedZone.ref)
  {
  }

  /** The distribution serves the deploy bucket under the domain alone, with the declared certificate, over HTTPS. */
  lemma DistributionWiring(stackId: string, props: InfrastructureProps)
    ensures var s := NewStaticSiteInfrastructure(stackId, props);
      && s.distribution.origin == S3StaticWebsiteOrigin(s.deployBucket.ref)
      && s.distribution.domainNames == [props.domainName]
      && s.distribution.certificate == s.certificate.ref
      && s.distribution.defaultRootObject == IndexDocument
      && s.distribution.viewerProtocolPolicy == RedirectToHttps
      && s.distribution.cachePolicy == CachingOptimized
  {
  }

  /** The alias record sits in the zone declared for the domain and points at the declared distribution. */
  lemma RecordAliasesDistribution(stackId: string, props: InfrastructureProps)
    ensures var s := NewStaticSiteInfrastructure(stackId, props);
      && s.aRecord.zone == s.hostedZone.ref
      && s.aRecord.target == CloudFrontTarget(s.distribution.ref)
  {
  }

  /**
   * Public read through a bucket policy is compatible with the bucket's access
   * block: the block, if any, neither blocks public policies nor restricts
   * public buckets.
   */
  predicate PolicyReadAllowed(b: Bucket)
  {
    b.blockPublicAccess.None? ||
    (!b.blockPublicAccess.value.blockPublicPolicy && !b.blockPublicAccess.value.restrictPublicBuckets)
  }

  /**
   * The deploy bucket hosts a website, is publicly readable with only ACLs
   * blocked, lets the origin access identity read, and its policy holds exactly
   * one statement: anyone may get any object of that bucket.
   */
  lemma DeployBucketAccessPosture(stackId: string, props: InfrastructureProps)
    ensures var s := NewStaticSiteInfrastructure(stackId, props);
      && s.deployBucket.websiteIndexDocument == Some(IndexDocument)
      && s.deployBucket.websiteErrorDocument == Some(ErrorDocument)
      && s.deployBucket.publicReadAccess
      && s.deployBucket.blockPublicAccess == Some(BlockAcls)
      && s.deployBucket.blockPublicAccess.value.blockPublicAcls
      && PolicyReadAllowed(s.deployBucket)
      && s.deployBucket.readers == [IdentityPrincipal(s.originAccessIdentity.ref)]
      && s.bucketPolicy.bucket == s.deployBucket.ref
      && s.bucketPolicy.document ==
           [PolicyStatement(Allow, ["s3:GetObject"], [TokenThen(BucketArn(s.deployBucket.ref), "/*")], [AnyPrincipal])]
  {
  }

  /** Both buckets are removed with the stack, objects included. */
  lemma BucketsDestroyedWithStack(stackId: string, props: InfrastructureProps)
    ensures var s := NewStaticSiteInfrastructure(stackId, props);
      && s.sourceBucket.removalPolicy == Destroy && s.sourceBucket.autoDeleteObjects
      && s.deployBucket.removalPolicy == Destroy && s.deployBucket.autoDeleteObjects
      && !s.sourceBucket.publicReadAccess && s.sourceBucket.websiteIndexDocument.None?
  {
  }
}
