# sample-app core, modelled in Dafny

This project models the logic of the KhangPynamo/sample-app repository:

- **Pulumi declaration layer (TypeScript).** Resource naming and tags. The WebSocket API component with one route and one invoke permission per route key. The two Lambda-from-image variants: a role, two managed attachments, an inline ECR pull policy and the function. The two image components and the image function, whose tag or name comes from a trimmed version file. The `readFile` helper.
- **Chat Lambda (`apps/chat/src/chat.py`).** The LangGraph node functions, the branch after `check_conversation` and the fixed chain after it, `lambda_handler`, and the local `__main__` loop with its per-user `conversations` table.

Pulumi outputs are taken as already-resolved values. An `Engine` oracle gives the value of each output attribute of a declared resource. A declaration appends one record to a `Stack`, the class whose `resources` field lists every record registered so far, in order.

Components that are classes in the source (`WebSocketApiWithRoutes`, `LambdaFunctionImage`, `DockerHelper`, `EcrRepositoryPush`) are Dafny classes. Their constructors:

- register records on the stack;
- set the same read-only fields the source sets;
- are proved against a `Plan` function, which the lemmas then describe.

The `for...in` loop over the route keys is a method with a loop invariant. The plain-function variants (`createLambdaFunctionImage`, `pushImageECR`) are functions over values.

The chat graph is modelled as follows:

- the state dictionary is a record with one optional entry per key;
- every node is a function from the state to an update (or the exception it raises);
- a run calls a node, merges its update and follows the edge, ending at END or at the first exception.

The database helpers and the Bedrock model are oracles in an `Env` value:

- creation gives an id or None;
- the reads give a possibly empty list;
- the model gives a reply or raises.

`save_message` is not an oracle, because its outcome depends on the content alone (db_handler.py:35-62). `embed_text` (embedding_vector_handler.py:14-30) catches every exception. For a content that is not a string or a list, it returns None: either the Bedrock call fails, or its own debug line slices the text and raises. So `content[:50]` in the warning is evaluated and raises a TypeError that the `psycopg2.Error` handler does not catch. An event without "input" therefore reaches lambda_handler's invocation-error branch once its conversation is created (`ChatHandler.MissingInputResponse`).

The local loop is a class `Repl` whose `conversations` map its methods update. A finite script of turns is proved against the `Session` function.

Some behaviours of the code are easy to miss; the model follows the code:

- Names are not collision-free. `("a-b", none)` and `("a", "b")` give the same name (`Naming.NameCollision`).
- An unreadable version file does not abort the declaration pass. `readFileVersion` throws inside an `apply` callback, so the image is still declared and only the output that depends on the version is rejected (`DockerHelper.UnreadableVersion`, `PushImageComponent.TagAndUri`).
- The inline ECR policy is not declared before the function. It is created in an `apply` callback, so it comes last in the plan, and nothing orders the function after it.
- Only the first `$` of a route key is removed from the permission name, as `String.prototype.replace` with a string pattern does.
- index.ts's tags are not always non-empty. A variables file without a field leaves that tag undefined (`ConfigIndex.GlobalTags`) and renders `undefined` in names.

Trimming follows `String.prototype.trim`. It removes the WhiteSpace (section 12.2 of ECMA-262) and LineTerminator (section 12.3) code points.

## Model

| member | source | states |
|---|---|---|
| Naming.LoadSettings | pulumi/config/naming.ts:5-8 | loading succeeds exactly when env, prefix, project and owner are all set, with those values; otherwise the error names the first missing key in the order the source requires them |
| Naming.ResourceName | pulumi/config/naming.ts:10-19 | every name starts with `prefix-env-` and is longer than the resource part |
| Naming.NameShape | pulumi/config/naming.ts:14-17 | without a truthy component the name is `prefix-env-resource`; with one it is that name plus `-component`; an empty component acts as an absent one |
| Naming.NameInjective | pulumi/config/naming.ts:14 | for fixed settings, equal names without a component have equal resource parts |
| Naming.NameCollision | pulumi/config/naming.ts:14-17 | `("a-b", none)` and `("a", "b")` give the same name |
| Naming.GlobalTags | pulumi/config/naming.ts:21-26 | exactly the keys Project, Managed By, Owner and Environment; Managed By is "Pulumi"; the others are project, owner and environment |
| Naming.TagsAgreeWithNames | pulumi/config/naming.ts:14-25 | the Environment tag is the environment segment every name begins with |
| ConfigIndex.LoadVariableConfig | pulumi/config/index.ts:11-19 | succeeds exactly when the file is readable and parses, with the parsed value; an unreadable file or a syntax error fails with "Failed to load variables from <path>: <cause>" |
| ConfigIndex.LoadIndexConfig | pulumi/config/index.ts:21-27 | the module loads exactly when the variables file loads and `env` is set; a file failure comes first, then the missing `env` |
| ConfigIndex.GetResourceName | pulumi/config/index.ts:29-35 | every name starts with the rendered prefix, the environment and a dash |
| ConfigIndex.SameNameAsNaming | pulumi/config/index.ts:29-35 | with the same prefix and environment, index.ts's getResourceName equals naming.ts's on every input |
| ConfigIndex.GlobalTags | pulumi/config/index.ts:37-42 | exactly four keys; Managed By is "Pulumi", Environment the required env, Project and Owner as read from the file (possibly undefined) |
| ConfigIndex.SameTagsAsNaming | pulumi/config/index.ts:37-42 | with the same project, owner and environment, the two tag sets agree key by key |
| ConfigIndex.MissingPrefixRendersUndefined | pulumi/config/index.ts:15-30 | a parsed file without "prefix" is accepted, and every name then starts with "undefined-" |
| Files.ReadFile | pulumi/config/readFile.ts:4-15 | succeeds exactly when the path is readable, with a trim of its content; otherwise fails with "Failed to read content from <path>: <cause>" |
| Files.ReadFileVersion | pulumi/resources/docker/dockerHelper.ts:6-15 | succeeds exactly when the path is readable, with a trim of its content; otherwise fails with "Failed to read version from <path>: <cause>" |
| Files.ReadValueIsTrimmed | pulumi/config/readFile.ts:7-8 | the value read has no surrounding white space, equals readFileVersion's, and is the content itself when that is already trimmed |
| Files.ReadVersionLine | pulumi/config/readFile.ts:8 | a file holding "1.2.3\n" reads as "1.2.3" |
| Text.IsWhite | pulumi/config/readFile.ts:8 | the characters `trim` removes: space, tab, LF and CR among them, no ASCII letter or digit, and all in the Basic Multilingual Plane, so trimming UTF-16 units and code points agree |
| Text.LeadingWhite | pulumi/config/readFile.ts:8 | counts exactly the white-space characters a string starts with: all before it are white, the next is not |
| Text.TrailingWhite | pulumi/config/readFile.ts:8 | counts exactly the white-space characters a string ends with |
| Text.WhiteBefore | pulumi/config/readFile.ts:8 | only white space precedes the trimmed slice |
| Text.WhiteAfter | pulumi/config/readFile.ts:8 | the trimmed slice lies within the string and only white space follows it |
| Text.SliceTrimmed | pulumi/config/readFile.ts:8 | the trimmed slice neither starts nor ends with white space |
| Text.TrimSlice | pulumi/config/readFile.ts:8 | the slice between leading and trailing white space meets all the trim conditions |
| Text.IsTrimOf | pulumi/config/readFile.ts:8 | the reference definition of `trim`: a trimmed slice of the input with only white space cut off either end, never longer than the input |
| Text.Trim | pulumi/config/readFile.ts:8 | the result is a contiguous slice of the input with only white space outside it and no white space at its ends |
| Text.TrimSlicesAgree | pulumi/config/readFile.ts:8 | two slices that both have only white space outside them and none at their ends are the same string |
| Text.TrimIsUnique | pulumi/config/readFile.ts:8 | any string meeting those conditions is Trim's result, so the trim is determined by the conditions |
| Text.TrimOfPadded | pulumi/config/readFile.ts:8 | surrounding white space is removed and the trimmed middle, interior white space included, is kept |
| Text.TrimOfTrimmed | pulumi/config/readFile.ts:8 | a string without surrounding white space is returned unchanged |
| Text.TrimIdempotent | pulumi/config/readFile.ts:8 | trimming twice is trimming once |
| Text.TrimVersionLine | pulumi/config/readFile.ts:8 | "1.2.3\n" trims to "1.2.3" |
| WebSocketComponent.SelectionExpression | pulumi/components/websocketApiWithRoutes.ts:35 | a present, non-empty expression is kept; an absent or empty one becomes "$request.body.action" |
| WebSocketComponent.IndexOf | pulumi/components/websocketApiWithRoutes.ts:68 | -1 exactly when the character is absent; otherwise a position holding it with no earlier occurrence |
| WebSocketComponent.StripFirstDollar | pulumi/components/websocketApiWithRoutes.ts:68 | `replace("$", "")` shortens the key by one exactly when it contains a "$" |
| WebSocketComponent.StripFirstDollarCuts | pulumi/components/websocketApiWithRoutes.ts:68 | `replace("$", "")` removes exactly the character at the first "$" and keeps the rest; a key without "$" is unchanged |
| WebSocketComponent.StripWithoutDollar | pulumi/components/websocketApiWithRoutes.ts:68 | a key without "$" is left as it is |
| WebSocketComponent.StripExamples | pulumi/components/websocketApiWithRoutes.ts:68 | "$connect" gives "connect", "$disconnect" "disconnect", "sendmessage" itself, and "$a$b" keeps its second "$" |
| WebSocketComponent.WebSocketApiWithRoutes.constructor | pulumi/components/websocketApiWithRoutes.ts:23-78 | appends the component, the API, the integration, then a route and a permission per key, to the stack; `api` is the API record and `apiId` its id |
| WebSocketComponent.DeclareRoutes | pulumi/components/websocketApiWithRoutes.ts:55-77 | the loop appends, key after key, the key's route and then its permission |
| WebSocketComponent.RoutesPlan | pulumi/components/websocketApiWithRoutes.ts:55-77 | the records the loop declares for the keys so far, two per key |
| WebSocketComponent.RoutesPlanLength | pulumi/components/websocketApiWithRoutes.ts:55-77 | the loop declares exactly two records per key |
| WebSocketComponent.RoutesPlanAt | pulumi/components/websocketApiWithRoutes.ts:55-77 | the i-th key's route is record 2i of the loop's records and its permission record 2i+1 |
| WebSocketComponent.RoutesPlanCount | pulumi/components/websocketApiWithRoutes.ts:55-77 | the loop declares as many routes and permissions as there are keys and nothing of any other kind |
| WebSocketComponent.HeaderCounts | pulumi/components/websocketApiWithRoutes.ts:28-53 | before the loop: one API, one integration, no route, no permission |
| WebSocketComponent.PlanCount | pulumi/components/websocketApiWithRoutes.ts:28-77 | a kind's count in the whole plan is its count before the loop plus the key count for routes and permissions |
| WebSocketComponent.Plan | pulumi/components/websocketApiWithRoutes.ts:28-77 | everything the constructor declares: 3 + 2n records for n keys, starting with the component under the caller's parent |
| WebSocketComponent.PlanCounts | pulumi/components/websocketApiWithRoutes.ts:28-77 | for n keys: 3 + 2n records, exactly one API, one integration, n routes and n permissions |
| WebSocketComponent.ApiAndIntegration | pulumi/components/websocketApiWithRoutes.ts:30-53 | a WEBSOCKET API with the defaulted selection expression; the one integration is an AWS_PROXY POST to the Lambda ARN on that API's id |
| WebSocketComponent.RouteOfKey | pulumi/components/websocketApiWithRoutes.ts:57-65 | the i-th route is named from `name-key-route`, keyed by the unmodified key, on the API, targeting "integrations/" + the integration id, child of the component |
| WebSocketComponent.PermissionOfKey | pulumi/components/websocketApiWithRoutes.ts:67-76 | the i-th permission is named with the key's first "$" removed, allows lambda:InvokeFunction on the Lambda ARN by apigateway.amazonaws.com from executionArn + "/*/" + the unstripped key, and is parented to the component |
| WebSocketComponent.ChatRoutes | pulumi/components/websocketApiWithRoutes.ts:55-77 | the keys "$connect", "$disconnect", "sendmessage" give three routes and three permissions, the first named with "connect" |
| LambdaCommon.EcrPolicyScope | pulumi/resources/aws/lambdaFunction/lambdaFunctionImage.ts:28-46 | the inline policy has version 2012-10-17 and one statement, and it allows an action on a resource exactly when the action is ecr:BatchGetImage or ecr:GetDownloadToken and the resource is the given repository ARN |
| LambdaFunctionImage.MemorySize | pulumi/resources/aws/lambdaFunction/lambdaFunctionImage.ts:51 | 128 when memorySize is absent or 0, otherwise the given value |
| LambdaFunctionImage.Timeout | pulumi/resources/aws/lambdaFunction/lambdaFunctionImage.ts:52 | 300 when timeout is absent or 0, otherwise the given value |
| LambdaFunctionImage.LambdaFunctionImage.constructor | pulumi/resources/aws/lambdaFunction/lambdaFunctionImage.ts:10-64 | appends the component, role, two attachments, function and inline policy to the stack; `lambdaFunction` is the function record and `functionArn` its ARN |
| LambdaFunctionImage.Plan | pulumi/resources/aws/lambdaFunction/lambdaFunctionImage.ts:11-56 | the six records the constructor declares, the component first under the caller's parent and the inline policy created in `apply` last |
| LambdaFunctionImage.PlanKinds | pulumi/resources/aws/lambdaFunction/lambdaFunctionImage.ts:11-56 | the plan's records are, in order, the component, a role, two attachments, a function and an inline policy |
| LambdaFunctionImage.PlanCounts | pulumi/resources/aws/lambdaFunction/lambdaFunctionImage.ts:11-56 | six records: exactly one role, two managed attachments, one inline policy and one function |
| LambdaFunctionImage.AttachmentsShareRole | pulumi/resources/aws/lambdaFunction/lambdaFunctionImage.ts:18-26 | both attachments attach to the one role's name, between them exactly BasicExecution and VPCAccess, with names through getResourceName |
| LambdaFunctionImage.RoleAndPolicy | pulumi/resources/aws/lambdaFunction/lambdaFunctionImage.ts:13-44 | the role is named `name-role` without getResourceName and is assumed by lambda.amazonaws.com; the inline policy is named functionName + "-ecr-policy", attaches to the role and allows only the two pulls on the repository ARN |
| LambdaFunctionImage.FunctionSettings | pulumi/resources/aws/lambdaFunction/lambdaFunctionImage.ts:48-58 | the function is an Image package of the given URI, with the role's ARN and the `\|\|` defaults for memory and timeout |
| LambdaFunctionImage.Parents | pulumi/resources/aws/lambdaFunction/lambdaFunctionImage.ts:11-56 | the component carries the caller's parent; every other record is the component's child |
| FunctionComponent.MemorySize | pulumi/infra/aws/lambda/functionComponent.ts:75 | 128 only when memorySize is absent; an explicit 0 is kept |
| FunctionComponent.Timeout | pulumi/infra/aws/lambda/functionComponent.ts:76 | 300 only when timeout is absent; an explicit 0 is kept |
| FunctionComponent.CreateLambdaFunctionImage | pulumi/infra/aws/lambda/functionComponent.ts:8-88 | five records; the returned function is the fourth, with the caller's parent, and its ARN is returned; the role is `name-role` with the caller's parent; attachments and inline policy are the role's children |
| FunctionComponent.DeclaredKinds | pulumi/infra/aws/lambda/functionComponent.ts:13-82 | the records are, in order, a role, two attachments, a function and an inline policy |
| FunctionComponent.DeclaredCounts | pulumi/infra/aws/lambda/functionComponent.ts:13-82 | exactly one role, two managed attachments, one inline policy, one function and no component |
| FunctionComponent.AttachmentsAndPolicy | pulumi/infra/aws/lambda/functionComponent.ts:24-68 | the attachments carry the raw names `name-policy-basic-execution` and `name-policy-vpc-access`, attach BasicExecution and VPCAccess to the role's name; the inline policy allows only the two pulls on the repository ARN |
| FunctionComponent.FunctionSettings | pulumi/infra/aws/lambda/functionComponent.ts:70-87 | the returned function is an Image package of the given URI with the role's ARN and the `??` defaults |
| FunctionComponent.DefaultsAgreeExceptOnZero | pulumi/infra/aws/lambda/functionComponent.ts:75-76 | the `??` and `\|\|` variants size the function alike exactly when the argument is not an explicit 0 |
| FunctionComponent.SameAsComponent | pulumi/infra/aws/lambda/functionComponent.ts:13-82 | apart from names of attachments and parents, both variants declare the same role, managed policies, inline policy and (no size being 0) function |
| DockerHelper.FullImageName | pulumi/resources/docker/dockerHelper.ts:28-29 | succeeds exactly when the version file is readable: the image name, ":", then a trim of the file; otherwise readFileVersion's error |
| DockerHelper.DockerHelper.constructor | pulumi/resources/docker/dockerHelper.ts:21-51 | appends the component and the image to the stack; `imageName` is the declared image's name |
| DockerHelper.ImageNameIsNameColonVersion | pulumi/resources/docker/dockerHelper.ts:28-40 | the image is named imageName + ":" + Trim(version file), so the tag has no surrounding white space |
| DockerHelper.VersionLineTag | pulumi/resources/docker/dockerHelper.ts:28-29 | a version file of "1.2.3\n" names the image `imageName:1.2.3` |
| DockerHelper.UnreadableVersion | pulumi/resources/docker/dockerHelper.ts:10-14 | an unreadable version file still declares the image, whose name is rejected with "Failed to read version from <path>: <cause>" |
| DockerHelper.ImageDecl | pulumi/resources/docker/dockerHelper.ts:31-43 | the docker.Image: named as the component and its child, with context, dockerfile, build args and platform passed through, and a name that resolves exactly when the version file is readable |
| DockerHelper.Plan | pulumi/resources/docker/dockerHelper.ts:26-43 | the component under the caller's parent, then the image as its child |
| DockerHelper.PassThrough | pulumi/resources/docker/dockerHelper.ts:31-43 | context, dockerfile, build args and platform are passed through, and the image is the component's child |
| EcrRepositoryPush.ImageDecl | pulumi/resources/aws/ecrRepository/ecrRepositoryPush.ts:28-40 | repository URL, context, dockerfile and platform pass through; the tag is a trim of the version file when readable, otherwise "Failed to read version from <path>: <cause>" |
| EcrRepositoryPush.Plan | pulumi/resources/aws/ecrRepository/ecrRepositoryPush.ts:26-40 | the component under the caller's parent, then the awsx.ecr.Image as its child |
| EcrRepositoryPush.ImageUri | pulumi/resources/aws/ecrRepository/ecrRepositoryPush.ts:42 | the image's URI output when its tag resolved, otherwise the tag's rejection |
| EcrRepositoryPush.EcrRepositoryPush.constructor | pulumi/resources/aws/ecrRepository/ecrRepositoryPush.ts:21-48 | appends the component and the image to the stack; `imageUri` is the declared image's URI |
| EcrRepositoryPush.TagIsTrimmedVersion | pulumi/resources/aws/ecrRepository/ecrRepositoryPush.ts:28-37 | a readable version file tags the image with exactly Trim(content), which has no surrounding white space; "1.2.3\n" tags it "1.2.3" |
| EcrRepositoryPush.ComponentWiring | pulumi/resources/aws/ecrRepository/ecrRepositoryPush.ts:26-42 | one image, the component's child, whose URI is the engine's once the tag resolves |
| PushImageComponent.PushImageEcr | pulumi/infra/aws/ecr/pushImageComponent.ts:20-43 | declares one image under the caller's parent and returns it; the URI resolves exactly when the version file is readable, to the image's URI |
| PushImageComponent.SameImageAsComponent | pulumi/infra/aws/ecr/pushImageComponent.ts:25-37 | the same image as EcrRepositoryPush declares, parent aside: URL, context, dockerfile, platform, tag and name |
| PushImageComponent.TagAndUri | pulumi/infra/aws/ecr/pushImageComponent.ts:25-42 | a readable version file tags the image with its trimmed content; an unreadable one rejects the returned URI with "Failed to read version from <path>: <cause>" |
| ChatState.Get | apps/chat/src/chat.py:65 | `state.get(k)`: None for an absent key, the entry otherwise |
| ChatNodes.AssignUserId | apps/chat/src/chat.py:58-61 | the node's argument is the state, so "user_id" is set to a copy of the whole state, whose own "user_id" is the original |
| ChatNodes.ShouldCreateNewConversation | apps/chat/src/chat.py:63-66 | sets only "should_create", to true exactly when the conversation id is absent or None |
| ChatNodes.UserIdArgument | apps/chat/src/chat.py:77 | a string is passed as it is, a dict through `.get("user_id")`; anything else raises |
| ChatNodes.CreateNewConversation | apps/chat/src/chat.py:68-79 | without a connection: id None and "__error__" = {error: "Database connection not available."}; with one: the conversation is created for the user id and its id (or None) stored; raises only when the user id has no `.get` |
| ChatNodes.ToMessages | apps/chat/src/chat.py:90 | one message per stored row, in order, with the row's role, content and type |
| ChatNodes.GetHistoryFromDb | apps/chat/src/chat.py:81-91 | sets only "history": [] without a connection or id, otherwise the stored rows as messages, in order |
| ChatNodes.JoinLinesEmpty | apps/chat/src/chat.py:103 | the joined "role: content" lines are empty exactly when there are no rows |
| ChatNodes.JoinLinesCons | apps/chat/src/chat.py:103 | a row in front of a non-empty rest adds its line and one newline before the rest's lines |
| ChatNodes.GetRelevantContext | apps/chat/src/chat.py:93-104 | sets only "relevant_history": "" unless connection, id and input are all present, otherwise the found rows' lines joined with "\n" |
| ChatNodes.PromptFor | apps/chat/src/chat.py:109-113 | the with-memory template exactly when relevant_history is truthy, with the history, the input and (then) the relevant history |
| ChatNodes.GenerateResponse | apps/chat/src/chat.py:106-120 | a missing history or input raises KeyError before the model is asked; otherwise the model is asked once; a reply is the response; a model error gives "An error occurred." and "__error__" with "Error generating response: " + the message |
| ChatNodes.GetUserInput | apps/chat/src/chat.py:122-126 | writes back the input read with `.get`, so "user_input" is present afterwards |
| ChatNodes.SaveMessage | apps/chat/src/db_handler.py:35-62 | saving succeeds exactly when the content is a string or a list, recording the save; otherwise it raises the TypeError of `content[:50]` |
| ChatNodes.SaveChatToDb | apps/chat/src/chat.py:128-142 | nothing saved without a connection or id; otherwise the input (role user) then the response (role assistant), a missing one raising KeyError and an unsliceable one raising TypeError after the saves before it; the state is returned as the update |
| ChatState.Merge | apps/chat/src/chat.py:48-55 | the update of a node's returned dictionary into the state, key by key; an empty update changes nothing, and an update of the empty state is the update |
| ChatState.MergeSelf | apps/chat/src/chat.py:135-142 | merging a state into itself leaves it as it is |
| ChatNodes.SaveKeepsState | apps/chat/src/chat.py:135-142 | merging save_chat_to_db's update changes nothing |
| ChatGraph.RouteConversation | apps/chat/src/chat.py:157-160 | END whenever "__error__" is present; otherwise create_conversation exactly when should_create is truthy, get_input exactly when not |
| ChatGraph.CallNode | apps/chat/src/chat.py:146-153 | the node function registered under each name; only create_conversation, generate_response and save_to_db raise, write or call the model (the reads of the other nodes are oracle results and are not recorded) |
| ChatGraph.RunFrom | apps/chat/src/chat.py:154-173 | a run from a node starts at that node, ends with an empty trace only at END, calls at most as many nodes as the node's distance to END, and a run that raised has called at least one node |
| ChatGraph.Invoke | apps/chat/src/chat.py:155 | `graph.invoke` (lines 195 and 230) starts at assign_id, the entry point, and calls at most the eight nodes |
| ChatGraph.Next | apps/chat/src/chat.py:162-173 | every edge strictly approaches END, so a run terminates |
| ChatGraph.AfterCheck | apps/chat/src/chat.py:162-166 | after assign_id and check_conversation the error, id, connection and input are as on entry, "user_id" is the entry state, and should_create is truthy exactly when there is no id |
| ChatGraph.TailState | apps/chat/src/chat.py:168-173 | the chain from get_input ends in the state generate_response left and raises only what save_chat_to_db raises |
| ChatGraph.TailRaises | apps/chat/src/chat.py:128-142 | the chain raises exactly when it saves and the input cannot be sliced, with the TypeError of the input; the response never fails |
| ChatGraph.TailTraceAndEffects | apps/chat/src/chat.py:168-173 | the chain calls get_input, get_history, get_relevant_context, generate_response, save_to_db in order; its writes and model calls are one model call, then the saves |
| ChatGraph.TailKeepsIdentity | apps/chat/src/chat.py:122-142 | user id, conversation id, connection, should_create and input pass through the chain unchanged |
| ChatGraph.TailPromptChoice | apps/chat/src/chat.py:99-113 | the with-memory prompt is used exactly when connection, id and input are present and the similarity search found rows |
| ChatGraph.TailPromptInput | apps/chat/src/chat.py:109-126 | the model is asked with the input as it was on entry to the chain |
| ChatGraph.TailReplied | apps/chat/src/chat.py:114-116 | on a reply, the response is the reply and "__error__" is as on entry |
| ChatGraph.TailModelError | apps/chat/src/chat.py:117-120 | on a model error, the response is "An error occurred." and "__error__" holds the model's message |
| ChatGraph.TailSaves | apps/chat/src/chat.py:128-142 | the chain saves input then response under the id exactly when there is a connection, an id and a sliceable input, and nothing otherwise |
| ChatGraph.HeadOutcome | apps/chat/src/chat.py:58-79 | before get_input: an existing id is kept; without one, a connected run creates a conversation for the original user id and records its id (or None); an unconnected one records None and sets "__error__" |
| ChatGraph.SavesBeforeTail | apps/chat/src/chat.py:58-79 | the tail of a run without "__error__" saves exactly when there is a connection and an id it started with or creation returned; the input is unchanged |
| ChatGraph.FinalRaises | apps/chat/src/chat.py:128-142 | the final save_chat_to_db of such a run raises exactly when the run saves and its input cannot be sliced |
| ChatGraph.RunOutcome | apps/chat/src/chat.py:157-173 | a run starting without "__error__" is not stopped by an error set on the way, ends in the state `Final` gives, and raises exactly when it saves an unsliceable input |
| ChatGraph.RunShape | apps/chat/src/chat.py:157-173 | the nodes are assign_id, check_conversation, create_conversation exactly without an id, then the fixed chain; the writes and model calls are the creation, the model, then the saves (the reads are not recorded) |
| ChatGraph.CreationFailedCalls | apps/chat/src/chat.py:68-142 | when creation returns None, the only write and model call are the creation and the model: nothing is saved |
| ChatGraph.CreatedCalls | apps/chat/src/chat.py:68-142 | when creation returns an id, the writes and model calls are the creation, the model, then the input and the response saved under that id, or no save when the input cannot be sliced (the reads are not recorded) |
| ChatGraph.CreatedSaves | apps/chat/src/chat.py:128-142 | the saves of such a run are on the starting connection, under the created id, and there are none for an unsliceable input |
| ChatGraph.RepliedOutcome | apps/chat/src/chat.py:106-116 | a connected run whose model replies ends with the reply as response and no "__error__" |
| ChatGraph.ModelErrorOutcome | apps/chat/src/chat.py:106-120 | a run whose model raises ends with the canned response and the "__error__" message |
| ChatGraph.ConnectedConversation | apps/chat/src/chat.py:68-79 | a connected run ends with the id it started with, or the id creation returned (None on failure) |
| ChatGraph.ErrorBeforeBranch | apps/chat/src/chat.py:157-159 | a state already holding "__error__" stops after check_conversation, without exception, write or model call |
| ChatHandler.UserIdOf | apps/chat/src/chat.py:185 | the event's user id, or "default_user" when absent |
| ChatHandler.InputOf | apps/chat/src/chat.py:184 | the event's input, or None when absent |
| ChatHandler.InitialState | apps/chat/src/chat.py:193 | user id, input and connection as given, no "__error__" and no conversation id |
| ChatHandler.Respond | apps/chat/src/chat.py:194-205 | an exception gives the invocation error; otherwise "__error__" wins over "response"; a missing "response" is the invocation error of its KeyError |
| ChatHandler.LambdaHandler | apps/chat/src/chat.py:186-191 | without a connection the response is {error: "Failed to connect to the database."} |
| ChatHandler.HandlerRaisedResponse | apps/chat/src/chat.py:193-205 | a connected event whose conversation is created and whose input cannot be sliced answers with "Error during graph invocation: " and the TypeError's message |
| ChatHandler.MissingInputResponse | apps/chat/src/chat.py:184-205 | an event without "input" whose conversation is created answers with "Error during graph invocation: 'NoneType' object is not subscriptable" |
| ChatHandler.HandlerResponse | apps/chat/src/chat.py:193-201 | any other connected event answers with the model's reply, or with generate_response's "__error__" when the model fails |
| ChatHandler.HandlerTrace | apps/chat/src/chat.py:193-198 | a connected event raises exactly in the case above and runs every node, create_conversation included: each event starts a new conversation |
| ChatHandler.HandlerPrompt | apps/chat/src/chat.py:184-198 | the model is asked with the event's input |
| ChatHandler.HandlerCalls | apps/chat/src/chat.py:178-205 | the creation and the model are called; the input and the response are saved under the created id when there is one and the input can be sliced, nothing otherwise |
| ChatRepl.Lower | apps/chat/src/chat.py:245 | `lower()` keeps the length and lowers each ASCII letter |
| ChatRepl.Lookup | apps/chat/src/chat.py:225 | `conversations.get(user_id)`: None for an unknown user |
| ChatRepl.InitialState | apps/chat/src/chat.py:222-227 | the two lines read, the remembered id of the user (None if unknown) and the connection, no "__error__" |
| ChatRepl.Report | apps/chat/src/chat.py:229-243 | the remembered map changes only on a printed reply, with no exception and no "__error__" |
| ChatRepl.TurnOutcome | apps/chat/src/chat.py:213-246 | without a connection the turn prints the connection error, remembers nothing and never stops the loop; otherwise it stops exactly on an exit word |
| ChatRepl.TurnStops | apps/chat/src/chat.py:217-246 | a turn stops the loop exactly when it is connected and its input is an exit word |
| ChatRepl.IsExitWord | apps/chat/src/chat.py:245 | the exit words themselves are exit words, and only a 3- or 4-character input can be one |
| ChatRepl.KnownUserTrace | apps/chat/src/chat.py:222-233 | a remembered user's turn skips create_conversation and runs the fixed chain |
| ChatRepl.KnownUserTurn | apps/chat/src/chat.py:222-240 | a remembered user's answered turn prints "Bot: <reply>" and keeps the same conversations |
| ChatRepl.NewUserTurn | apps/chat/src/chat.py:222-240 | a new user's answered turn prints the reply and remembers the id created for the user's name, or nothing when creation returned None |
| ChatRepl.ModelErrorTurn | apps/chat/src/chat.py:229-240 | when the model fails the turn prints "Bot Error: <error dict>" and remembers nothing |
| ChatRepl.SessionPrintsPerTurn | apps/chat/src/chat.py:213-246 | the loop prints one line per turn it reads |
| ChatRepl.ConsumedStopsFirst | apps/chat/src/chat.py:245-246 | the loop reads every turn up to the first that stops it and no turn after |
| ChatRepl.SessionRemembers | apps/chat/src/chat.py:239-240 | a user, once remembered, stays remembered |
| ChatRepl.RememberedId | apps/chat/src/chat.py:239-240 | when every remembered id is an integer, a connected turn ends with None or an integer id, so only integer ids are ever remembered |
| ChatRepl.Session | apps/chat/src/chat.py:213-246 | the reference run of the loop over a script of turns: at most one printed line per turn, and none exactly when there is no turn |
| ChatRepl.Repl.constructor | apps/chat/src/chat.py:211 | the loop starts with no remembered conversation |
| ChatRepl.Repl.Step | apps/chat/src/chat.py:214-246 | one iteration prints, updates `conversations` and decides whether to break exactly as TurnOutcome says, keeping only integer ids |
| ChatRepl.Repl.Loop | apps/chat/src/chat.py:213-246 | over a script of turns, prints and ends with the map exactly as Session says, stopping at the first break |

## Left out

- The Pulumi engine is not modelled: resource creation, diffing, provider calls and when outputs resolve. Outputs are resolved values from an oracle, and records are listed in declaration order. The inline ECR policy, created in an `apply` callback, is placed after every record the constructor declares.
- The `provider` resource option is dropped, and so are `registerOutputs` and the constructors' empty `args` bag. The IAM policy document stays as a value, not its JSON text. `assumeRolePolicyForPrincipal` is reduced to the principal name.
- The `for...in` loop is modelled over a sequence of keys in the order the engine enumerates them. The per-route options are never read, so they are left out too.
- index.ts: `path.join(__dirname, ...)` is a given path. `JSON.parse` is an oracle that yields a record with optional fields or a syntax error. A parsed value that is not an object, and fields that are present but not strings (null, numbers, objects), are not modelled.
- naming.ts and index.ts read their configuration at module load. They are modelled as functions of the loaded settings; `pulumi.Config` itself is not modelled.
- LambdaFunctionImage.MemorySize, LambdaFunctionImage.Timeout and WebSocketComponent.SelectionExpression apply `||` to the resolved value. In the source an `Output` argument is an object, so it is always truthy, and an Output that resolves to 0 or "" is kept. The caller in pulumi/index.ts passes plain values, where the model is exact.
- `readFileVersion` is defined three times, with identical bodies. It is modelled once, as Files.ReadFileVersion.
- DockerHelper.DockerHelper.constructor: `imageName` is the name the image was given. The Docker provider's echo of that name is not modelled.
- The LangGraph engine is not modelled. A node's return value is merged as a dictionary update, including the keys outside ChatState ("should_create", "__error__"). `MemorySaver` is imported but the graph is compiled without it. So the `thread_id` configuration has no effect, and it is left out.
- Prompt rendering is left out. A prompt is the chosen template and the values substituted into it. The Bedrock client and the model are an oracle that replies or raises.
- The effect log of a run records the writes (conversation creation, the message saves) and the model calls only. The history read of get_history_from_db and the similarity search of get_relevant_context, with its query embedding, are results of the `Env` oracles and are not logged.
- The other db_handler.py helpers are oracles: creation gives an id or None, the reads give a list. They catch psycopg2 errors themselves. The embedding call and the INSERT inside `save_message` are not effects of their own, and its unused boolean result is not modelled.
- ChatHandler.Event: an event's "input" and "user_id" are values the model can hold: None, a bool, an int, a string, a list of messages or one of the two dictionary shapes the graph itself builds (the error dictionary and the state). A float, a general JSON list and an arbitrary JSON object cannot be represented. A float input would raise "'float' object is not subscriptable" in save_message like an int.
- ChatNodes.SaveMessage: for a dictionary content the real exception differs by Python version (a KeyError of the slice from 3.12 on, "unhashable type: 'slice'" before). The model reports every unsliceable content with the "is not subscriptable" wording.
- `get_db_connection` is a given connection or None. Secrets Manager, connecting and `close_db` are not modelled.
- Logging, `print` formatting and the banner are left out. A printed line is a value saying which message was printed with which content.
- Module import of chat.py is not modelled, including the exception raised when the Bedrock client cannot be created.
- ChatRepl.Repl.Loop: the `while True` loop over standard input is modelled as a finite script of turns. End of input (`EOFError`) is not modelled.
- ChatRepl.Lower: `str.lower()` is modelled on ASCII letters only, and unlike `str.lower()`, `Lower` always keeps the length. For the exit-word test (`IsExitWord`) the model is exact. Only two non-ASCII characters lowercase to ASCII letters. KELVIN SIGN gives "k", which no exit word contains. LATIN CAPITAL LETTER I WITH DOT ABOVE gives "i" followed by a combining dot, so the result is no exit word.
- ChatRepl.KnownUserTurn: does not state the stop flag, which ChatRepl.TurnStops states for every turn.
- ChatHandler.LambdaHandler: its own contract covers only the unconnected case. The connected case is stated by ChatHandler.HandlerResponse, HandlerTrace and HandlerCalls. The invocation-error branch (chat.py:202-205) is stated by ChatHandler.HandlerRaisedResponse.
- The thin wrappers, pulumi/index.ts, the provider file and the Args type files are not part of this model. Beyond `save_message`, the embedding and database code in apps/chat/src is not part of it either.
