/**
 * The declaration pass as a plan: each `new <Resource>(name, props, opts)` appends one
 * record to the stack being declared. Outputs of declared resources (an id, an ARN, a
 * URI) are read from an engine oracle once resolved.
 */
module Resources {
  import opened Wrappers

  type Tags = map<string, string>

  /** A declared resource, identified by its Pulumi type token and logical name. */
  datatype Ref = Ref(typeToken: string, name: string)

  /** The `parent` resource option; None is the stack root. */
  type Parent = Option<Ref>

  /** The resolved value of output `attribute` of the resource `Ref`. */
  type Engine = (Ref, string) -> string

  /** Lambda VPC settings, passed through unchanged. */
  datatype VpcConfig = VpcConfig(subnetIds: seq<string>, securityGroupIds: seq<string>)

  /** One IAM policy statement. */
  datatype Statement = Statement(action: seq<string>, effect: string, resource: string)

  /** An IAM policy document, before JSON.stringify. */
  datatype PolicyDocument = PolicyDocument(version: string, statement: seq<Statement>)

  /** The resource records the core declares, with the properties it sets. */
  datatype Resource =
    | Component(typeToken: string, name: string, parent: Parent)
    | Api(name: string, parent: Parent, apiName: string, protocolType: string,
          routeSelectionExpression: string, tags: Option<Tags>)
    | Integration(name: string, parent: Parent, apiId: string, integrationType: string,
                  integrationUri: string, integrationMethod: string)
    | Route(name: string, parent: Parent, apiId: string, routeKey: string, target: string)
    | Permission(name: string, parent: Parent, action: string, functionArn: string,
                 principal: string, sourceArn: string)
    | Role(name: string, parent: Parent, assumeRolePrincipal: string, tags: Option<Tags>)
    | RolePolicyAttachment(name: string, parent: Parent, role: string, policyArn: string)
    | RolePolicy(name: string, parent: Parent, role: string, policy: PolicyDocument)
    | Function(name: string, parent: Parent, packageType: string, imageUri: string, memorySize: int,
               timeout: int, role: string, tags: Option<Tags>, vpcConfig: Option<VpcConfig>)
    // An image input that comes from a rejected output (a failed file read) is a Failure.
    | DockerImage(name: string, parent: Parent, context: string, dockerfile: string,
                  buildArgs: Option<Tags>, platform: Option<string>, imageName: Result<string, string>)
    | EcrImage(name: string, parent: Parent, repositoryUrl: string, context: string, dockerfile: string,
               platform: Option<string>, imageTag: Result<string, string>)

  /** The kinds of record, one per Pulumi resource type the core declares. */
  datatype Kind =
    | ComponentKind | ApiKind | IntegrationKind | RouteKind | PermissionKind | RoleKind
    | RolePolicyAttachmentKind | RolePolicyKind | FunctionKind | DockerImageKind | EcrImageKind

  function KindOf(r: Resource): Kind {
    match r
    case Component(_, _, _) => ComponentKind
    case Api(_, _, _, _, _, _) => ApiKind
    case Integration(_, _, _, _, _, _) => IntegrationKind
    case Route(_, _, _, _, _) => RouteKind
    case Permission(_, _, _, _, _, _) => PermissionKind
    case Role(_, _, _, _) => RoleKind
    case RolePolicyAttachment(_, _, _, _) => RolePolicyAttachmentKind
    case RolePolicy(_, _, _, _) => RolePolicyKind
    case Function(_, _, _, _, _, _, _, _, _) => FunctionKind
    case DockerImage(_, _, _, _, _, _, _) => DockerImageKind
    case EcrImage(_, _, _, _, _, _, _) => EcrImageKind
  }

  /** Pulumi type tokens of the resources the core declares. */
  const ApiType: string := "aws:apigatewayv2/api:Api"
  const IntegrationType: string := "aws:apigatewayv2/integration:Integration"
  const RouteType: string := "aws:apigatewayv2/route:Route"
  const PermissionType: string := "aws:lambda/permission:Permission"
  const RoleType: string := "aws:iam/role:Role"
  const RolePolicyAttachmentType: string := "aws:iam/rolePolicyAttachment:RolePolicyAttachment"
  const RolePolicyType: string := "aws:iam/rolePolicy:RolePolicy"
  const FunctionType: string := "aws:lambda/function:Function"
  const DockerImageType: string := "docker:index/image:Image"
  const EcrImageType: string := "awsx:ecr:Image"

  /** The Pulumi type token of a record. */
  function TypeOf(r: Resource): string {
    match r
    case Component(t, _, _) => t
    case Api(_, _, _, _, _, _) => ApiType
    case Integration(_, _, _, _, _, _) => IntegrationType
    case Route(_, _, _, _, _) => RouteType
    case Permission(_, _, _, _, _, _) => PermissionType
    case Role(_, _, _, _) => RoleType
    case RolePolicyAttachment(_, _, _, _) => RolePolicyAttachmentType
    case RolePolicy(_, _, _, _) => RolePolicyType
    case Function(_, _, _, _, _, _, _, _, _) => FunctionType
    case DockerImage(_, _, _, _, _, _, _) => DockerImageType
    case EcrImage(_, _, _, _, _, _, _) => EcrImageType
  }

  function RefOf(r: Resource): Ref {
    Ref(TypeOf(r), r.name)
  }

  /** How many records of a plan are of the given kind. */
  function CountOf(plan: seq<Resource>, kind: Kind): (n: nat)
    ensures n <= |plan|
  {
    if plan == [] then 0
    else CountOf(plan[..|plan| - 1], kind) + (if KindOf(plan[|plan| - 1]) == kind then 1 else 0)
  }

  lemma {:induction false} CountOfAppend(a: seq<Resource>, b: seq<Resource>, kind: Kind)
    ensures CountOf(a + b, kind) == CountOf(a, kind) + CountOf(b, kind)
  {
    if b != [] {
      assert (a + b)[..|a + b| - 1] == a + b[..|b| - 1];
      CountOfAppend(a, b[..|b| - 1], kind);
    } else {
      assert a + b == a;
    }
  }

  lemma CountOfSingle(r: Resource, kind: Kind)
    ensures CountOf([r], kind) == if KindOf(r) == kind then 1 else 0
  {
    assert [r][..0] == [];
  }

  lemma CountOfPair(a: Resource, b: Resource, kind: Kind)
    ensures CountOf([a, b], kind) == (if KindOf(a) == kind then 1 else 0) + (if KindOf(b) == kind then 1 else 0)
  {
    assert [a, b][..1] == [a];
    CountOfSingle(a, kind);
  }

  /** A plan whose records have the kinds `kinds`, position by position, counts each kind as often as `kinds` lists it. */
  lemma {:induction false} CountOfKinds(plan: seq<Resource>, kinds: seq<Kind>, kind: Kind)
    requires |plan| == |kinds| && forall i :: 0 <= i < |plan| ==> KindOf(plan[i]) == kinds[i]
    ensures CountOf(plan, kind) == multiset(kinds)[kind]
  {
    if plan != [] {
      var n := |plan| - 1;
      CountOfKinds(plan[..n], kinds[..n], kind);
      assert kinds == kinds[..n] + [kinds[n]];
    }
  }

  /** The stack being declared: the records registered so far, in registration order. */
  class Stack {
    var resources: seq<Resource>

    constructor()
      ensures resources == []
    {
      resources := [];
    }

    /** Registers one resource. */
    method Register(r: Resource)
      modifies this
      ensures resources == old(resources) + [r]
    {
      resources := resources + [r];
    }
  }
}
