/**
 * pulumi/infra/aws/lambda/functionComponent.ts: createLambdaFunctionImage, the plain-function
 * variant of the Lambda-from-image component. It declares the same role, attachments,
 * inline policy and function, with `??` defaults, unprefixed attachment names, and the
 * caller's parent instead of a component of its own.
 */
module FunctionComponent {
  import opened Wrappers
  import opened Resources
  import opened LambdaCommon
  import Js
  import LambdaFunctionImage
  import ConfigIndex

  /** LambdaFunctionImageResult, together with the records the call declared, in order. */
  datatype Created = Created(declared: seq<Resource>, lambdaFunction: Resource, lambdaFunctionArn: string)

  /** `args.memorySize ?? 128`: only an absent value falls back; 0 is kept. */
  function MemorySize(args: Args): (m: int)
    ensures args.memorySize.None? ==> m == DefaultMemorySize
    ensures args.memorySize.Some? ==> m == args.memorySize.value
  {
    Js.Nullish(args.memorySize, DefaultMemorySize)
  }

  /** `args.timeout ?? 300`: only an absent value falls back; 0 is kept. */
  function Timeout(args: Args): (t: int)
    ensures args.timeout.None? ==> t == DefaultTimeout
    ensures args.timeout.Some? ==> t == args.timeout.value
  {
    Js.Nullish(args.timeout, DefaultTimeout)
  }

  /**
   * createLambdaFunctionImage. The role and the function take the caller's parent; the
   * attachments and the inline policy are children of the role. The inline policy, declared
   * in an `apply` callback, comes last.
   */
  function CreateLambdaFunctionImage(name: string, args: Args, parent: Parent, out: Engine): (r: Created)
    ensures |r.declared| == 5 && r.lambdaFunction == r.declared[3]
    ensures r.lambdaFunctionArn == out(RefOf(r.lambdaFunction), ArnAttribute)
    ensures r.declared[0].Role? && r.declared[0].name == name + RoleSuffix && r.declared[0].parent == parent
    ensures forall i :: 1 <= i < 5 && i != 3 ==> r.declared[i].parent == Some(RefOf(r.declared[0]))
    ensures r.lambdaFunction.Function? && r.lambdaFunction.parent == parent
  {
    var role := Role(name + RoleSuffix, parent, LambdaPrincipal, args.tags);
    var roleRef := RefOf(role);
    var roleName := out(roleRef, NameAttribute);
    var basic := RolePolicyAttachment(name + BasicExecutionSuffix, Some(roleRef), roleName, BasicExecutionRoleArn);
    var vpc := RolePolicyAttachment(name + VpcAccessSuffix, Some(roleRef), roleName, VpcAccessExecutionRoleArn);
    var policy := RolePolicy(args.functionName + EcrPolicySuffix, Some(roleRef), roleName, EcrPolicy(args.ecrRepositoryArn));
    var fn := Function(name, parent, ImagePackage, args.ecrImageUri, MemorySize(args), Timeout(args),
                       out(roleRef, ArnAttribute), args.tags, args.vpcConfig);
    Created([role, basic, vpc, fn, policy], fn, out(RefOf(fn), ArnAttribute))
  }

  /** One role, two managed attachments, one inline policy and one function. */
  lemma {:induction false} DeclaredCounts(name: string, args: Args, parent: Parent, out: Engine)
    ensures CountOf(CreateLambdaFunctionImage(name, args, parent, out).declared, RoleKind) == 1
    ensures CountOf(CreateLambdaFunctionImage(name, args, parent, out).declared, RolePolicyAttachmentKind) == 2
    ensures CountOf(CreateLambdaFunctionImage(name, args, parent, out).declared, RolePolicyKind) == 1
    ensures CountOf(CreateLambdaFunctionImage(name, args, parent, out).declared, FunctionKind) == 1
    ensures CountOf(CreateLambdaFunctionImage(name, args, parent, out).declared, ComponentKind) == 0
  {
    var d := CreateLambdaFunctionImage(name, args, parent, out).declared;
    DeclaredKinds(name, args, parent, out);
    CountOfKinds(d, DeclaredKindList, RoleKind);
    CountOfKinds(d, DeclaredKindList, RolePolicyAttachmentKind);
    CountOfKinds(d, DeclaredKindList, RolePolicyKind);
    CountOfKinds(d, DeclaredKindList, FunctionKind);
    CountOfKinds(d, DeclaredKindList, ComponentKind);
  }

  /** The kinds of the records a call declares, in order. */
  const DeclaredKindList: seq<Kind> := [RoleKind, RolePolicyAttachmentKind, RolePolicyAttachmentKind, FunctionKind, RolePolicyKind]

  /** The role, the two attachments, the function, then the inline policy. */
  lemma DeclaredKinds(name: string, args: Args, parent: Parent, out: Engine)
    ensures |CreateLambdaFunctionImage(name, args, parent, out).declared| == |DeclaredKindList|
    ensures forall i :: 0 <= i < |DeclaredKindList| ==>
              KindOf(CreateLambdaFunctionImage(name, args, parent, out).declared[i]) == DeclaredKindList[i]
  {
  }

  /**
   * The attachments carry the raw names `name-policy-basic-execution` and
   * `name-policy-vpc-access`, attach BasicExecution and VPCAccess to the role's name, and the
   * inline policy grants exactly the two ECR pull actions on the repository ARN.
   */
  lemma AttachmentsAndPolicy(name: string, args: Args, parent: Parent, out: Engine, action: string, resource: string)
    ensures var d := CreateLambdaFunctionImage(name, args, parent, out).declared;
      && d[1].RolePolicyAttachment? && d[1].name == name + BasicExecutionSuffix
      && d[1].policyArn == BasicExecutionRoleArn && d[1].role == out(RefOf(d[0]), NameAttribute)
      && d[2].RolePolicyAttachment? && d[2].name == name + VpcAccessSuffix
      && d[2].policyArn == VpcAccessExecutionRoleArn && d[2].role == out(RefOf(d[0]), NameAttribute)
      && d[4].RolePolicy? && d[4].name == args.functionName + EcrPolicySuffix
      && d[4].role == out(RefOf(d[0]), NameAttribute)
      && (Allows(d[4].policy, action, resource) <==>
            (action == BatchGetImage || action == GetDownloadToken) && resource == args.ecrRepositoryArn)
  {
    EcrPolicyScope(args.ecrRepositoryArn, action, resource);
  }

  /** The returned function runs the given image under the role's ARN. */
  lemma FunctionSettings(name: string, args: Args, parent: Parent, out: Engine)
    ensures var r := CreateLambdaFunctionImage(name, args, parent, out);
      && r.lambdaFunction.name == name && r.lambdaFunction.packageType == ImagePackage
      && r.lambdaFunction.imageUri == args.ecrImageUri
      && r.lambdaFunction.role == out(RefOf(r.declared[0]), ArnAttribute)
      && r.lambdaFunction.memorySize == (if args.memorySize.Some? then args.memorySize.value else DefaultMemorySize)
      && r.lambdaFunction.timeout == (if args.timeout.Some? then args.timeout.value else DefaultTimeout)
  {
  }

  /**
   * The two variants disagree exactly on an explicit 0: `??` keeps it where `||` replaces
   * it by the default. On every other argument they size the function alike.
   */
  lemma {:induction false} DefaultsAgreeExceptOnZero(args: Args)
    ensures MemorySize(args) == LambdaFunctionImage.MemorySize(args) <==> args.memorySize != Some(0)
    ensures Timeout(args) == LambdaFunctionImage.Timeout(args) <==> args.timeout != Some(0)
  {
    assert DefaultMemorySize != 0 && DefaultTimeout != 0;
  }

  /**
   * Apart from names and parents, the variants declare the same thing: the same role
   * principal and tags, the same two managed policies, the same inline policy, and (when
   * no size is 0) the same function.
   */
  lemma {:induction false} SameAsComponent(c: ConfigIndex.IndexConfig, name: string, args: Args,
                                           parent: Parent, out: Engine)
    requires args.memorySize != Some(0) && args.timeout != Some(0)
    ensures var d := CreateLambdaFunctionImage(name, args, parent, out).declared;
      var p := LambdaFunctionImage.Plan(c, name, args, parent, out);
      && d[0].name == p[1].name && d[0].assumeRolePrincipal == p[1].assumeRolePrincipal && d[0].tags == p[1].tags
      && d[1].policyArn == p[2].policyArn && d[2].policyArn == p[3].policyArn
      && d[4].name == p[5].name && d[4].policy == p[5].policy
      && d[3].Function? && p[4].Function? && d[3].name == p[4].name && d[3].imageUri == p[4].imageUri
      && d[3].memorySize == p[4].memorySize && d[3].timeout == p[4].timeout && d[3].role == p[4].role
      && d[3].tags == p[4].tags && d[3].vpcConfig == p[4].vpcConfig
  {
    DefaultsAgreeExceptOnZero(args);
  }
}
