/**
 * pulumi/resources/aws/lambdaFunction/lambdaFunctionImage.ts: a component that declares
 * an execution role, two managed-policy attachments, a Lambda function running a
 * container image, and (once its inputs resolve) an inline ECR pull policy.
 */
module LambdaFunctionImage {
  import opened Wrappers
  import opened Resources
  import opened LambdaCommon
  import Js
  import ConfigIndex

  const ComponentType: string := "aws:lambda:FunctionImage"

  /** Every child is parented to the component itself. */
  function Self(name: string): Parent {
    Some(Ref(ComponentType, name))
  }

  /** `args.memorySize || 128`: absent and 0 both fall back. */
  function MemorySize(args: Args): (m: int)
    ensures args.memorySize == None || args.memorySize == Some(0) ==> m == DefaultMemorySize
    ensures args.memorySize.Some? && args.memorySize.value != 0 ==> m == args.memorySize.value
  {
    Js.NumberOr(args.memorySize, DefaultMemorySize)
  }

  /** `args.timeout || 300`: absent and 0 both fall back. */
  function Timeout(args: Args): (t: int)
    ensures args.timeout == None || args.timeout == Some(0) ==> t == DefaultTimeout
    ensures args.timeout.Some? && args.timeout.value != 0 ==> t == args.timeout.value
  {
    Js.NumberOr(args.timeout, DefaultTimeout)
  }

  /** The role's name is plainly `name-role`; it does not go through getResourceName. */
  function RoleDecl(name: string, args: Args): Resource {
    Role(name + RoleSuffix, Self(name), LambdaPrincipal, args.tags)
  }

  function RoleRef(name: string, args: Args): Ref {
    RefOf(RoleDecl(name, args))
  }

  function BasicAttachmentDecl(c: ConfigIndex.IndexConfig, name: string, args: Args, out: Engine): Resource {
    RolePolicyAttachment(ConfigIndex.GetResourceName(c, name + BasicExecutionSuffix, None), Self(name),
                         out(RoleRef(name, args), NameAttribute), BasicExecutionRoleArn)
  }

  function VpcAttachmentDecl(c: ConfigIndex.IndexConfig, name: string, args: Args, out: Engine): Resource {
    RolePolicyAttachment(ConfigIndex.GetResourceName(c, name + VpcAccessSuffix, None), Self(name),
                         out(RoleRef(name, args), NameAttribute), VpcAccessExecutionRoleArn)
  }

  function FunctionDecl(name: string, args: Args, out: Engine): Resource {
    Function(name, Self(name), ImagePackage, args.ecrImageUri, MemorySize(args), Timeout(args),
             out(RoleRef(name, args), ArnAttribute), args.tags, args.vpcConfig)
  }

  /** Declared in the `pulumi.all(...).apply` callback, named from the resolved function name. */
  function EcrPolicyDecl(name: string, args: Args, out: Engine): Resource {
    RolePolicy(args.functionName + EcrPolicySuffix, Self(name), out(RoleRef(name, args), NameAttribute),
               EcrPolicy(args.ecrRepositoryArn))
  }

  /**
   * Everything one construction declares. The inline policy comes last: its callback runs
   * only after the constructor has returned.
   */
  function Plan(c: ConfigIndex.IndexConfig, name: string, args: Args, parent: Parent, out: Engine): (r: seq<Resource>)
    ensures |r| == 6 && r[0] == Component(ComponentType, name, parent) && r[5].RolePolicy?
  {
    [Component(ComponentType, name, parent), RoleDecl(name, args), BasicAttachmentDecl(c, name, args, out),
     VpcAttachmentDecl(c, name, args, out), FunctionDecl(name, args, out), EcrPolicyDecl(name, args, out)]
  }

  class LambdaFunctionImage {
    /** `this.function` (`function` is a Dafny keyword). */
    const lambdaFunction: Resource
    const functionArn: string

    constructor(stack: Stack, c: ConfigIndex.IndexConfig, name: string, args: Args, parent: Parent, out: Engine)
      modifies stack
      ensures stack.resources == old(stack.resources) + Plan(c, name, args, parent, out)
      ensures lambdaFunction == FunctionDecl(name, args, out)
      ensures functionArn == out(RefOf(lambdaFunction), ArnAttribute)
    {
      var f := FunctionDecl(name, args, out);
      lambdaFunction := f;
      functionArn := out(RefOf(f), ArnAttribute);
      new;
      var component, role := Component(ComponentType, name, parent), RoleDecl(name, args);
      var basic, vpc := BasicAttachmentDecl(c, name, args, out), VpcAttachmentDecl(c, name, args, out);
      var policy := EcrPolicyDecl(name, args, out);
      stack.Register(component);
      stack.Register(role);
      stack.Register(basic);
      stack.Register(vpc);
      stack.Register(f);
      stack.Register(policy);
      assert stack.resources == old(stack.resources) + [component, role, basic, vpc, f, policy];
    }
  }

  /**
   * One role, two managed attachments, one inline policy and one function, besides the
   * component itself.
   */
  lemma {:induction false} PlanCounts(c: ConfigIndex.IndexConfig, name: string, args: Args, parent: Parent, out: Engine)
    ensures |Plan(c, name, args, parent, out)| == 6
    ensures CountOf(Plan(c, name, args, parent, out), RoleKind) == 1
    ensures CountOf(Plan(c, name, args, parent, out), RolePolicyAttachmentKind) == 2
    ensures CountOf(Plan(c, name, args, parent, out), RolePolicyKind) == 1
    ensures CountOf(Plan(c, name, args, parent, out), FunctionKind) == 1
  {
    var p := Plan(c, name, args, parent, out);
    PlanKinds(c, name, args, parent, out);
    CountOfKinds(p, PlanKindList, RoleKind);
    CountOfKinds(p, PlanKindList, RolePolicyAttachmentKind);
    CountOfKinds(p, PlanKindList, RolePolicyKind);
    CountOfKinds(p, PlanKindList, FunctionKind);
  }

  /** The kinds of the records of a plan, in order. */
  const PlanKindList: seq<Kind> :=
    [ComponentKind, RoleKind, RolePolicyAttachmentKind, RolePolicyAttachmentKind, FunctionKind, RolePolicyKind]

  /** The component, the role, the two attachments, the function, then the inline policy. */
  lemma PlanKinds(c: ConfigIndex.IndexConfig, name: string, args: Args, parent: Parent, out: Engine)
    ensures |Plan(c, name, args, parent, out)| == |PlanKindList|
    ensures forall i :: 0 <= i < |PlanKindList| ==> KindOf(Plan(c, name, args, parent, out)[i]) == PlanKindList[i]
  {
  }

  /**
   * Both attachments attach to the one role (by its name output) and between them attach
   * exactly BasicExecution and VPCAccess; their names go through getResourceName.
   */
  lemma AttachmentsShareRole(c: ConfigIndex.IndexConfig, name: string, args: Args, parent: Parent, out: Engine)
    ensures var p := Plan(c, name, args, parent, out);
      && p[1].Role? && p[2].RolePolicyAttachment? && p[3].RolePolicyAttachment?
      && p[2].role == out(RefOf(p[1]), NameAttribute) && p[3].role == out(RefOf(p[1]), NameAttribute)
      && {p[2].policyArn, p[3].policyArn} == {BasicExecutionRoleArn, VpcAccessExecutionRoleArn}
      && p[2].policyArn != p[3].policyArn
      && p[2].name == ConfigIndex.GetResourceName(c, name + BasicExecutionSuffix, None)
      && p[3].name == ConfigIndex.GetResourceName(c, name + VpcAccessSuffix, None)
  {
    assert |BasicExecutionRoleArn| != |VpcAccessExecutionRoleArn|;
  }

  /**
   * The role is named `name-role` outright and assumed by the Lambda service; the inline
   * policy is named after the function name and pulls only from the given repository.
   */
  lemma RoleAndPolicy(c: ConfigIndex.IndexConfig, name: string, args: Args, parent: Parent, out: Engine,
                      action: string, resource: string)
    ensures var p := Plan(c, name, args, parent, out);
      && p[1].Role? && p[1].name == name + RoleSuffix && p[1].assumeRolePrincipal == LambdaPrincipal
      && p[5].RolePolicy? && p[5].name == args.functionName + EcrPolicySuffix
      && p[5].role == out(RefOf(p[1]), NameAttribute)
      && (Allows(p[5].policy, action, resource) <==>
            (action == BatchGetImage || action == GetDownloadToken) && resource == args.ecrRepositoryArn)
  {
    EcrPolicyScope(args.ecrRepositoryArn, action, resource);
  }

  /**
   * The function runs the given image with the role's ARN, and its memory and timeout
   * take their defaults exactly when the argument is absent or 0.
   */
  lemma FunctionSettings(c: ConfigIndex.IndexConfig, name: string, args: Args, parent: Parent, out: Engine)
    ensures var p := Plan(c, name, args, parent, out);
      && p[4].Function? && p[4].name == name && p[4].packageType == ImagePackage
      && p[4].imageUri == args.ecrImageUri && p[4].role == out(RefOf(p[1]), ArnAttribute)
      && (args.memorySize == None || args.memorySize == Some(0) ==> p[4].memorySize == DefaultMemorySize)
      && (args.timeout == None || args.timeout == Some(0) ==> p[4].timeout == DefaultTimeout)
      && (args.memorySize.Some? && args.memorySize.value != 0 ==> p[4].memorySize == args.memorySize.value)
      && (args.timeout.Some? && args.timeout.value != 0 ==> p[4].timeout == args.timeout.value)
  {
  }

  /** The component record carries the caller's parent; every record after it is a child of the component. */
  lemma {:induction false} Parents(c: ConfigIndex.IndexConfig, name: string, args: Args, parent: Parent, out: Engine)
    ensures Plan(c, name, args, parent, out)[0] == Component(ComponentType, name, parent)
    ensures forall i :: 1 <= i < |Plan(c, name, args, parent, out)| ==>
              Plan(c, name, args, parent, out)[i].parent == Some(Ref(ComponentType, name))
  {
  }
}
