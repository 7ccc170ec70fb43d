/**
 * What the two Lambda-from-image variants share: their argument shape (the two
 * LambdaFunctionImageArgs interfaces declare the same fields), the managed policies
 * they attach, and the inline ECR policy document.
 */
module LambdaCommon {
  import opened Wrappers
  import opened Resources

  /** LambdaFunctionImageArgs, every input resolved. `ecrRepositoryUrl` is declared but never read. */
  datatype Args = Args(ecrImageUri: string, ecrRepositoryArn: string, ecrRepositoryUrl: string,
                       functionName: string, memorySize: Option<int>, timeout: Option<int>,
                       tags: Option<Tags>, vpcConfig: Option<VpcConfig>)

  const LambdaPrincipal: string := "lambda.amazonaws.com"
  /** aws.iam.ManagedPolicy.AWSLambdaBasicExecutionRole. */
  const BasicExecutionRoleArn: string := "arn:aws:iam::aws:policy/service-role/AWSLambdaBasicExecutionRole"
  /** aws.iam.ManagedPolicy.AWSLambdaVPCAccessExecutionRole. */
  const VpcAccessExecutionRoleArn: string := "arn:aws:iam::aws:policy/service-role/AWSLambdaVPCAccessExecutionRole"

  const RoleSuffix: string := "-role"
  const BasicExecutionSuffix: string := "-policy-basic-execution"
  const VpcAccessSuffix: string := "-policy-vpc-access"
  const EcrPolicySuffix: string := "-ecr-policy"

  const PolicyVersion: string := "2012-10-17"
  const Allow: string := "Allow"
  const BatchGetImage: string := "ecr:BatchGetImage"
  const GetDownloadToken: string := "ecr:GetDownloadToken"
  const ImagePackage: string := "Image"
  const DefaultMemorySize: int := 128
  const DefaultTimeout: int := 300
  const NameAttribute: string := "name"
  const ArnAttribute: string := "arn"

  /** The inline policy document, before JSON.stringify. */
  function EcrPolicy(repoArn: string): PolicyDocument {
    PolicyDocument(PolicyVersion, [Statement([BatchGetImage, GetDownloadToken], Allow, repoArn)])
  }

  /** The document allows `action` on `resource` through some Allow statement naming both. */
  predicate Allows(doc: PolicyDocument, action: string, resource: string) {
    exists i :: 0 <= i < |doc.statement| && doc.statement[i].effect == Allow &&
      action in doc.statement[i].action && doc.statement[i].resource == resource
  }

  /**
   * The ECR policy allows exactly the two image-pull actions and only on the repository
   * ARN it was given; every statement is an Allow on that ARN.
   */
  lemma EcrPolicyScope(repoArn: string, action: string, resource: string)
    ensures Allows(EcrPolicy(repoArn), action, resource) <==>
              (action == BatchGetImage || action == GetDownloadToken) && resource == repoArn
    ensures EcrPolicy(repoArn).version == PolicyVersion && |EcrPolicy(repoArn).statement| == 1
    ensures forall st :: st in EcrPolicy(repoArn).statement ==> st.effect == Allow && st.resource == repoArn
  {
    var st := EcrPolicy(repoArn).statement[0];
    if (action == BatchGetImage || action == GetDownloadToken) && resource == repoArn {
      assert action in st.action;
    }
  }
}
