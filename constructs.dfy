/**
 * Values shared by both stacks: construct identity, IAM principals and
 * policy statements, and the declaration graph that records which declared
 * resource refers to which.
 */
module Constructs {

  datatype Option<+T> = None | Some(value: T)

  /** The outcome of a step that may throw; `Err` carries the thrown message. */
  datatype Result<+T> = Ok(value: T) | Err(error: string)

  /**
   * Identity of a construct: the id of the stack it was declared in and its
   * construct id inside that stack.  Two references are the same resource
   * exactly when they are equal.
   */
  datatype Ref = Ref(stack: string, id: string)

  /** The deployment environment a stack is bound to (`env` in the stack props). */
  datatype StackEnv = StackEnv(account: Option<string>, region: string)

  datatype Principal =
    | AnyPrincipal
    | ServicePrincipal(service: string)
    | IdentityPrincipal(identity: Ref)

  /** A value only known at deploy time, such as the ARN of a declared bucket. */
  datatype Token = BucketArn(bucket: Ref)

  /** A resource in a policy statement: literal text, or a token followed by text. */
  datatype ResourcePattern =
    | Literal(text: string)
    | TokenThen(token: Token, suffix: string)

  /** `new PolicyStatement({...})` without an `effect` property allows. */
  datatype Effect = Allow | Deny

  datatype PolicyStatement = PolicyStatement(
    effect: Effect,
    actions: seq<string>,
    resources: seq<ResourcePattern>,
    principals: seq<Principal>)

  // ---------------------------------------------------------------------------
  // The declaration graph
  // ---------------------------------------------------------------------------

  datatype Kind =
    | ZoneKind | CertificateKind | IdentityKind | BucketKind | BucketPolicyKind
    | DistributionKind | RecordKind | RoleKind | ProjectKind | PipelineKind

  /** A reference from one declaration to a resource of the given kind. */
  datatype Edge = Edge(target: Ref, kind: Kind)

  /** One declared resource: its identity, its kind and the resources it refers to. */
  datatype Decl = Decl(ref: Ref, kind: Kind, uses: seq<Edge>)

  /** Edge `e` names a resource of the right kind declared at a position before `i`. */
  ghost predicate DeclaredBefore(decls: seq<Decl>, e: Edge, i: int)
  {
    exists j :: 0 <= j < i && j < |decls| && decls[j].ref == e.target && decls[j].kind == e.kind
  }

  /**
   * Every reference made by a declaration names a resource of the expected
   * kind declared earlier: the producer-to-consumer edges all point backwards,
   * so declaration order is a topological order of the graph.
   */
  ghost predicate ReferencesResolveBackward(decls: seq<Decl>)
  {
    forall i, e :: 0 <= i < |decls| && e in decls[i].uses ==> DeclaredBefore(decls, e, i)
  }

  /** No two declarations share an identity. */
  ghost predicate DistinctRefs(decls: seq<Decl>)
  {
    forall i, j :: 0 <= i < j < |decls| ==> decls[i].ref != decls[j].ref
  }

  /** All declarations belong to stack `stack`. */
  ghost predicate AllIn(decls: seq<Decl>, stack: string)
  {
    forall i :: 0 <= i < |decls| ==> decls[i].ref.stack == stack
  }

  /** No two of `ids` are equal. */
  ghost predicate NoDuplicates(ids: seq<string>)
  {
    forall i, j :: 0 <= i < j < |ids| ==> ids[i] != ids[j]
  }

  /** Declarations in one stack whose construct ids are pairwise different have distinct identities. */
  lemma DistinctIdsDistinctRefs(decls: seq<Decl>, stack: string, ids: seq<string>)
    requires |decls| == |ids| && NoDuplicates(ids)
    requires forall k :: 0 <= k < |decls| ==> decls[k].ref == Ref(stack, ids[k])
    ensures DistinctRefs(decls) && AllIn(decls, stack)
  {
  }

  lemma DeclaredAt(decls: seq<Decl>, e: Edge, i: int, j: int)
    requires 0 <= j < i && j < |decls|
    requires decls[j].ref == e.target && decls[j].kind == e.kind
    ensures DeclaredBefore(decls, e, i)
  {
  }

  /**
   * Declaring a second batch after a first keeps every reference resolvable,
   * provided each reference of the second batch resolves into the first batch
   * or to an earlier declaration of its own.
   */
  lemma {:induction false} ConcatResolvesBackward(a: seq<Decl>, b: seq<Decl>)
    requires ReferencesResolveBackward(a)
    requires forall i, e :: 0 <= i < |b| && e in b[i].uses ==>
               DeclaredBefore(a, e, |a|) || DeclaredBefore(b, e, i)
    ensures ReferencesResolveBackward(a + b)
  {
    var ab := a + b;
    forall i, e | 0 <= i < |ab| && e in ab[i].uses
      ensures DeclaredBefore(ab, e, i)
    {
      if i < |a| {
        assert ab[i] == a[i];
        var j :| 0 <= j < i && j < |a| && a[j].ref == e.target && a[j].kind == e.kind;
        DeclaredAt(ab, e, i, j);
      } else {
        assert ab[i] == b[i - |a|];
        if DeclaredBefore(a, e, |a|) {
          var j :| 0 <= j < |a| && j < |a| && a[j].ref == e.target && a[j].kind == e.kind;
          DeclaredAt(ab, e, i, j);
        } else {
          var j :| 0 <= j < i - |a| && j < |b| && b[j].ref == e.target && b[j].kind == e.kind;
          assert ab[|a| + j] == b[j];
          DeclaredAt(ab, e, i, |a| + j);
        }
      }
    }
  }

  /** Two batches with distinct identities, declared in two different stacks, stay distinct together. */
  lemma {:induction false} ConcatDistinct(a: seq<Decl>, sa: string, b: seq<Decl>, sb: string)
    requires DistinctRefs(a) && DistinctRefs(b)
    requires AllIn(a, sa) && AllIn(b, sb) && sa != sb
    ensures DistinctRefs(a + b)
  {
    var ab := a + b;
    forall i, j | 0 <= i < j < |ab|
      ensures ab[i].ref != ab[j].ref
    {
      if j < |a| {
        assert ab[i] == a[i] && ab[j] == a[j];
      } else if i >= |a| {
        assert ab[i] == b[i - |a|] && ab[j] == b[j - |a|];
      } else {
        assert ab[i] == a[i] && ab[j] == b[j - |a|];
        assert ab[i].ref.stack == sa && ab[j].ref.stack == sb;
      }
    }
  }
}
