/**
 * pulumi/components/websocketApiWithRoutes.ts: a WebSocket API, one Lambda proxy
 * integration, and a route plus an invoke permission per route key.
 */
module WebSocketComponent {
  import opened Wrappers
  import opened Resources
  import Js
  import Naming

  /**
   * WebSocketApiWithRoutesArgs. `routes` lists the keys of the routes record in the order
   * `for...in` visits them; the per-route options are never read.
   */
  datatype Args = Args(name: string, routeSelectionExpression: Option<string>, routes: seq<string>,
                       lambdaFunctionArn: string, tags: Option<Tags>)

  const ComponentType: string := "custom:components:WebSocketApiWithRoutes"
  const DefaultSelectionExpression: string := "$request.body.action"

  /** `args.routeSelectionExpression || "$request.body.action"`. */
  function SelectionExpression(o: Option<string>): (e: string)
    ensures Js.Truthy(o) ==> e == o.value
    ensures !Js.Truthy(o) ==> e == DefaultSelectionExpression
  {
    Js.StringOr(o, DefaultSelectionExpression)
  }

  /** Whether c occurs in s. */
  predicate Contains(s: string, c: char) {
    s != [] && (s[0] == c || Contains(s[1..], c))
  }

  /** Contains agrees with sequence membership. */
  lemma {:induction false} ContainsIsIn(s: string, c: char)
    ensures Contains(s, c) <==> c in s
  {
    if s != [] {
      ContainsIsIn(s[1..], c);
      assert s == [s[0]] + s[1..];
    }
  }

  /** String.prototype.indexOf for one character: the first position of c, or -1. */
  function IndexOf(s: string, c: char): (i: int)
    ensures -1 <= i < |s|
    ensures i == -1 <==> !Contains(s, c)
    ensures i >= 0 ==> s[i] == c && !Contains(s[..i], c)
  {
    if s == [] then -1
    else if s[0] == c then (assert s[..0] == []; 0)
    else
      var j := IndexOf(s[1..], c);
      if j < 0 then -1 else (assert s[..j + 1][1..] == s[1..][..j]; j + 1)
  }

  /** `key.replace("$", "")`: a string pattern, so only the first "$" is removed. */
  function StripFirstDollar(key: string): (r: string)
    ensures |r| == if '$' in key then |key| - 1 else |key|
  {
    if key == [] then []
    else if key[0] == '$' then key[1..]
    else [key[0]] + StripFirstDollar(key[1..])
  }

  /**
   * Replacing the first "$" cuts out the character at its indexOf position; a key
   * without "$" is unchanged.
   */
  lemma {:induction false} StripFirstDollarCuts(key: string)
    ensures var i := IndexOf(key, '$');
      StripFirstDollar(key) == if i < 0 then key else key[..i] + key[i + 1..]
  {
    if key != [] && key[0] != '$' {
      StripFirstDollarCuts(key[1..]);
      var j := IndexOf(key[1..], '$');
      if j >= 0 {
        assert key[..j + 1] == [key[0]] + key[1..][..j];
        assert key[j + 2..] == key[1..][j + 1..];
      }
    }
  }

  /** A key without "$" is left as it is. */
  lemma {:induction false} StripWithoutDollar(key: string)
    requires !Contains(key, '$')
    ensures StripFirstDollar(key) == key
  {
    if key != [] {
      StripWithoutDollar(key[1..]);
      assert key == [key[0]] + key[1..];
    }
  }

  /** Children are parented to the component itself. */
  function Self(name: string): Parent {
    Some(Ref(ComponentType, name))
  }

  /*
   * The fixed strings of the declarations, named once so the declarations themselves stay
   * small terms for the verifier.
   */
  const WebSocketProtocol: string := "WEBSOCKET"
  const AwsProxy: string := "AWS_PROXY"
  const Post: string := "POST"
  const IntegrationSuffix: string := "-integration"
  const Dash: string := "-"
  const RouteSuffix: string := "-route"
  const IntegrationsPrefix: string := "integrations/"
  const PermissionPrefix: string := "allow-apigw-invoke-"
  const InvokeAction: string := "lambda:InvokeFunction"
  const ApiGatewayPrincipal: string := "apigateway.amazonaws.com"
  const AnyStage: string := "/*/"
  const IdAttribute: string := "id"
  const ExecutionArnAttribute: string := "executionArn"

  function ApiDecl(s: Naming.Settings, name: string, args: Args): Resource {
    Api(Naming.ResourceName(s, name, None), Self(name), Naming.ResourceName(s, args.name, None), WebSocketProtocol,
        SelectionExpression(args.routeSelectionExpression), args.tags)
  }

  function IntegrationDecl(s: Naming.Settings, name: string, args: Args, out: Engine): Resource {
    Integration(Naming.ResourceName(s, name + IntegrationSuffix, None), Self(name), out(RefOf(ApiDecl(s, name, args)), IdAttribute),
                AwsProxy, args.lambdaFunctionArn, Post)
  }

  function RouteDecl(s: Naming.Settings, name: string, args: Args, out: Engine, key: string): Resource {
    Route(Naming.ResourceName(s, name + Dash + key + RouteSuffix, None), Self(name), out(RefOf(ApiDecl(s, name, args)), IdAttribute),
          key, IntegrationsPrefix + out(RefOf(IntegrationDecl(s, name, args, out)), IdAttribute))
  }

  function PermissionDecl(s: Naming.Settings, name: string, args: Args, out: Engine, key: string): Resource {
    Permission(Naming.ResourceName(s, PermissionPrefix + name + Dash + StripFirstDollar(key), None), Self(name),
               InvokeAction, args.lambdaFunctionArn, ApiGatewayPrincipal,
               out(RefOf(ApiDecl(s, name, args)), ExecutionArnAttribute) + AnyStage + key)
  }

  /** What the loop body declares for each of `keys`, in order: a route, then its permission. */
  function RoutesPlan(s: Naming.Settings, name: string, args: Args, out: Engine, keys: seq<string>): (r: seq<Resource>)
    ensures |r| == 2 * |keys|
  {
    if keys == [] then []
    else RoutesPlan(s, name, args, out, keys[..|keys| - 1]) +
         [RouteDecl(s, name, args, out, keys[|keys| - 1]), PermissionDecl(s, name, args, out, keys[|keys| - 1])]
  }

  /** What the constructor declares before its loop: the component itself, the API, the integration. */
  function Header(s: Naming.Settings, name: string, args: Args, parent: Parent, out: Engine): seq<Resource> {
    [Component(ComponentType, name, parent), ApiDecl(s, name, args), IntegrationDecl(s, name, args, out)]
  }

  /** Everything the constructor declares. */
  function Plan(s: Naming.Settings, name: string, args: Args, parent: Parent, out: Engine): (r: seq<Resource>)
    ensures |r| == 3 + 2 * |args.routes| && r[0] == Component(ComponentType, name, parent)
  {
    Header(s, name, args, parent, out) + RoutesPlan(s, name, args, out, args.routes)
  }

  class WebSocketApiWithRoutes {
    const api: Resource
    const apiId: string

    constructor(stack: Stack, s: Naming.Settings, name: string, args: Args, parent: Parent, out: Engine)
      modifies stack
      ensures stack.resources == old(stack.resources) + Plan(s, name, args, parent, out)
      ensures api == ApiDecl(s, name, args) && apiId == out(RefOf(api), IdAttribute)
    {
      var a := ApiDecl(s, name, args);
      api := a;
      apiId := out(RefOf(a), IdAttribute);
      new;
      stack.Register(Component(ComponentType, name, parent));
      stack.Register(a);
      stack.Register(IntegrationDecl(s, name, args, out));
      assert stack.resources == old(stack.resources) + Header(s, name, args, parent, out);
      DeclareRoutes(stack, s, name, args, out);
    }
  }

  /** The constructor's `for (const routeKey in args.routes)` loop. */
  method DeclareRoutes(stack: Stack, s: Naming.Settings, name: string, args: Args, out: Engine)
    modifies stack
    ensures stack.resources == old(stack.resources) + RoutesPlan(s, name, args, out, args.routes)
  {
    for i := 0 to |args.routes|
      invariant stack.resources == old(stack.resources) + RoutesPlan(s, name, args, out, args.routes[..i])
    {
      var routeKey := args.routes[i];
      stack.Register(RouteDecl(s, name, args, out, routeKey));
      stack.Register(PermissionDecl(s, name, args, out, routeKey));
      RoutesPlanStep(s, name, args, out, args.routes, i);
    }
    assert args.routes[..|args.routes|] == args.routes;
  }

  /** One more iteration of the loop appends the next key's route and permission. */
  lemma RoutesPlanStep(s: Naming.Settings, name: string, args: Args, out: Engine, keys: seq<string>, i: int)
    requires 0 <= i < |keys|
    ensures RoutesPlan(s, name, args, out, keys[..i + 1]) ==
              RoutesPlan(s, name, args, out, keys[..i]) + [RouteDecl(s, name, args, out, keys[i]), PermissionDecl(s, name, args, out, keys[i])]
  {
    assert keys[..i + 1][..i] == keys[..i];
  }

  /** The loop declares two records per key. */
  lemma {:induction false} RoutesPlanLength(s: Naming.Settings, name: string, args: Args, out: Engine, keys: seq<string>)
    ensures |RoutesPlan(s, name, args, out, keys)| == 2 * |keys|
  {
    if keys != [] {
      RoutesPlanLength(s, name, args, out, keys[..|keys| - 1]);
    }
  }

  /** The i-th key contributes records 2i (its route) and 2i+1 (its permission). */
  lemma {:induction false} RoutesPlanAt(s: Naming.Settings, name: string, args: Args, out: Engine, keys: seq<string>, i: int)
    requires 0 <= i < |keys|
    ensures |RoutesPlan(s, name, args, out, keys)| == 2 * |keys|
    ensures RoutesPlan(s, name, args, out, keys)[2 * i] == RouteDecl(s, name, args, out, keys[i])
    ensures RoutesPlan(s, name, args, out, keys)[2 * i + 1] == PermissionDecl(s, name, args, out, keys[i])
  {
    var init := keys[..|keys| - 1];
    var last := keys[|keys| - 1];
    var p := RoutesPlan(s, name, args, out, init);
    RoutesPlanLength(s, name, args, out, init);
    assert RoutesPlan(s, name, args, out, keys) == p + [RouteDecl(s, name, args, out, last), PermissionDecl(s, name, args, out, last)];
    if i < |keys| - 1 {
      RoutesPlanAt(s, name, args, out, init, i);
      assert keys[i] == init[i];
    }
  }

  /** Per key exactly one route and one permission; nothing else. */
  lemma {:induction false} RoutesPlanCount(s: Naming.Settings, name: string, args: Args, out: Engine, keys: seq<string>, kind: Kind)
    ensures CountOf(RoutesPlan(s, name, args, out, keys), kind) == if kind == RouteKind || kind == PermissionKind then |keys| else 0
  {
    if keys != [] {
      var init := keys[..|keys| - 1];
      var last := keys[|keys| - 1];
      var pair := [RouteDecl(s, name, args, out, last), PermissionDecl(s, name, args, out, last)];
      assert RoutesPlan(s, name, args, out, keys) == RoutesPlan(s, name, args, out, init) + pair;
      RoutesPlanCount(s, name, args, out, init, kind);
      CountOfAppend(RoutesPlan(s, name, args, out, init), pair, kind);
      CountOfPair(pair[0], pair[1], kind);
    }
  }

  /** A kind's count in the whole plan: its count before the loop plus its count in the loop. */
  lemma {:induction false} PlanCount(s: Naming.Settings, name: string, args: Args, parent: Parent, out: Engine, kind: Kind)
    ensures CountOf(Plan(s, name, args, parent, out), kind) ==
              CountOf(Header(s, name, args, parent, out), kind) + if kind == RouteKind || kind == PermissionKind then |args.routes| else 0
  {
    RoutesPlanCount(s, name, args, out, args.routes, kind);
    CountOfAppend(Header(s, name, args, parent, out), RoutesPlan(s, name, args, out, args.routes), kind);
  }

  /** For n route keys: exactly one API, one integration, n routes and n permissions. */
  lemma {:induction false} PlanCounts(s: Naming.Settings, name: string, args: Args, parent: Parent, out: Engine)
    ensures |Plan(s, name, args, parent, out)| == 3 + 2 * |args.routes|
    ensures CountOf(Plan(s, name, args, parent, out), ApiKind) == 1
    ensures CountOf(Plan(s, name, args, parent, out), IntegrationKind) == 1
    ensures CountOf(Plan(s, name, args, parent, out), RouteKind) == |args.routes|
    ensures CountOf(Plan(s, name, args, parent, out), PermissionKind) == |args.routes|
  {
    RoutesPlanLength(s, name, args, out, args.routes);
    HeaderCounts(s, name, args, parent, out);
    PlanCount(s, name, args, parent, out, ApiKind);
    PlanCount(s, name, args, parent, out, IntegrationKind);
    PlanCount(s, name, args, parent, out, RouteKind);
    PlanCount(s, name, args, parent, out, PermissionKind);
  }

  lemma {:induction false} HeaderCounts(s: Naming.Settings, name: string, args: Args, parent: Parent, out: Engine)
    ensures CountOf(Header(s, name, args, parent, out), ApiKind) == 1
    ensures CountOf(Header(s, name, args, parent, out), IntegrationKind) == 1
    ensures CountOf(Header(s, name, args, parent, out), RouteKind) == 0
    ensures CountOf(Header(s, name, args, parent, out), PermissionKind) == 0
  {
    var h := Header(s, name, args, parent, out);
    forall k: Kind ensures CountOf(h, k) == CountOf([h[0]], k) + CountOf([h[1]], k) + CountOf([h[2]], k) {
      assert h == [h[0]] + [h[1]] + [h[2]];
      CountOfAppend([h[0]] + [h[1]], [h[2]], k);
      CountOfAppend([h[0]], [h[1]], k);
    }
    forall k: Kind ensures CountOf([h[0]], k) == (if KindOf(h[0]) == k then 1 else 0)
                   && CountOf([h[1]], k) == (if KindOf(h[1]) == k then 1 else 0)
                   && CountOf([h[2]], k) == (if KindOf(h[2]) == k then 1 else 0) {
      CountOfSingle(h[0], k);
      CountOfSingle(h[1], k);
      CountOfSingle(h[2], k);
    }
  }

  /**
   * The API takes the default selection expression when none (or "") is given, and the
   * one integration is an AWS_PROXY POST to the Lambda ARN on that API.
   */
  lemma ApiAndIntegration(s: Naming.Settings, name: string, args: Args, parent: Parent, out: Engine)
    ensures Plan(s, name, args, parent, out)[1].Api?
    ensures Plan(s, name, args, parent, out)[1].routeSelectionExpression ==
              if Js.Truthy(args.routeSelectionExpression) then args.routeSelectionExpression.value else DefaultSelectionExpression
    ensures Plan(s, name, args, parent, out)[1].protocolType == WebSocketProtocol
    ensures Plan(s, name, args, parent, out)[2].Integration?
    ensures Plan(s, name, args, parent, out)[2].integrationType == AwsProxy
    ensures Plan(s, name, args, parent, out)[2].integrationMethod == Post
    ensures Plan(s, name, args, parent, out)[2].integrationUri == args.lambdaFunctionArn
    ensures Plan(s, name, args, parent, out)[2].apiId == out(RefOf(Plan(s, name, args, parent, out)[1]), IdAttribute)
  {
  }

  /**
   * The route for the i-th key: named from `name-key-route`, keyed by the unmodified key,
   * on the API, and targeting the single integration.
   */
  lemma {:induction false} RouteOfKey(s: Naming.Settings, name: string, args: Args, parent: Parent, out: Engine, i: int)
    requires 0 <= i < |args.routes|
    ensures var p := Plan(s, name, args, parent, out);
      && |p| == 3 + 2 * |args.routes|
      && p[3 + 2 * i].Route?
      && p[3 + 2 * i].name == Naming.ResourceName(s, name + Dash + args.routes[i] + RouteSuffix, None)
      && p[3 + 2 * i].routeKey == args.routes[i]
      && p[3 + 2 * i].apiId == out(RefOf(p[1]), IdAttribute)
      && p[3 + 2 * i].target == IntegrationsPrefix + out(RefOf(p[2]), IdAttribute)
      && p[3 + 2 * i].parent == Some(Ref(ComponentType, name))
  {
    RoutesPlanAt(s, name, args, out, args.routes, i);
    var p := Plan(s, name, args, parent, out);
    assert p[3 + 2 * i] == RoutesPlan(s, name, args, out, args.routes)[2 * i];
  }

  /**
   * The permission for the i-th key: named with the first "$" of the key removed, letting
   * API Gateway invoke the Lambda from the execution ARN, any stage, and the unstripped key.
   */
  lemma {:induction false} PermissionOfKey(s: Naming.Settings, name: string, args: Args, parent: Parent, out: Engine, i: int)
    requires 0 <= i < |args.routes|
    ensures var p := Plan(s, name, args, parent, out);
      && |p| == 3 + 2 * |args.routes|
      && p[4 + 2 * i].Permission?
      && p[4 + 2 * i].name == Naming.ResourceName(s, PermissionPrefix + name + Dash + StripFirstDollar(args.routes[i]), None)
      && p[4 + 2 * i].action == InvokeAction
      && p[4 + 2 * i].principal == ApiGatewayPrincipal
      && p[4 + 2 * i].functionArn == args.lambdaFunctionArn
      && p[4 + 2 * i].sourceArn == out(RefOf(p[1]), ExecutionArnAttribute) + AnyStage + args.routes[i]
      && p[4 + 2 * i].parent == Some(Ref(ComponentType, name))
  {
    RoutesPlanAt(s, name, args, out, args.routes, i);
    var p := Plan(s, name, args, parent, out);
    assert p[4 + 2 * i] == RoutesPlan(s, name, args, out, args.routes)[2 * i + 1];
  }

  /** "$connect" and "$disconnect" lose their marker; inner "$"s after the first are kept. */
  lemma StripExamples()
    ensures StripFirstDollar("$connect") == "connect"
    ensures StripFirstDollar("$disconnect") == "disconnect"
    ensures StripFirstDollar("sendmessage") == "sendmessage"
    ensures StripFirstDollar("$a$b") == "a$b"
  {
    ContainsIsIn("sendmessage", '$');
    StripWithoutDollar("sendmessage");
  }

  /** The three routes the application uses give exactly three routes and three permissions. */
  lemma {:induction false} ChatRoutes(s: Naming.Settings, name: string, args: Args, parent: Parent, out: Engine)
    requires args.routes == ["$connect", "$disconnect", "sendmessage"]
    ensures CountOf(Plan(s, name, args, parent, out), RouteKind) == 3
    ensures CountOf(Plan(s, name, args, parent, out), PermissionKind) == 3
    ensures Plan(s, name, args, parent, out)[4].name ==
              Naming.ResourceName(s, PermissionPrefix + name + Dash + "connect", None)
  {
    PlanCounts(s, name, args, parent, out);
    PermissionOfKey(s, name, args, parent, out, 0);
    StripExamples();
  }
}
