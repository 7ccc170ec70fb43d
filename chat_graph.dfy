/**
 * The LangGraph graph of apps/chat/src/chat.py: eight nodes, one conditional edge after
 * check_conversation, a fixed chain after it. A run calls a node, merges its update into
 * the state (a dictionary update), and follows the edge.
 */
module ChatGraph {
  import opened Wrappers
  import opened ChatState
  import N = ChatNodes

  datatype Node =
    | AssignId | CheckConversation | CreateConversation | GetInput | GetHistory
    | GetRelevantContext | GenerateResponse | SaveToDb | End

  /** The distance to END along the edges; every edge decreases it. */
  function Rank(n: Node): nat {
    match n
    case AssignId => 8
    case CheckConversation => 7
    case CreateConversation => 6
    case GetInput => 5
    case GetHistory => 4
    case GetRelevantContext => 3
    case GenerateResponse => 2
    case SaveToDb => 1
    case End => 0
  }

  /** route_conversation: an error ends the run before the should_create test. */
  function RouteConversation(s: State): (n: Node)
    ensures Has(s, ErrorKey) ==> n == End
    ensures !Has(s, ErrorKey) ==> (n == CreateConversation <==> Truthy(Get(s, ShouldCreate)))
    ensures !Has(s, ErrorKey) ==> (n == GetInput <==> !Truthy(Get(s, ShouldCreate)))
  {
    if Has(s, ErrorKey) then End
    else if Truthy(Get(s, ShouldCreate)) then CreateConversation
    else GetInput
  }

  /** The edges; only check_conversation's depends on the state. */
  function Next(n: Node, s: State): (m: Node)
    requires n != End
    ensures Rank(m) < Rank(n)
  {
    match n
    case AssignId => CheckConversation
    case CheckConversation => RouteConversation(s)
    case CreateConversation => GetInput
    case GetInput => GetHistory
    case GetHistory => GetRelevantContext
    case GetRelevantContext => GenerateResponse
    case GenerateResponse => SaveToDb
    case SaveToDb => End
  }

  /**
   * The node function registered under each node name. Only create_conversation,
   * generate_response and save_to_db raise, write or call the model; the other nodes only read.
   */
  function CallNode(env: N.Env, n: Node, s: State): (r: N.NodeResult)
    requires n != End
    ensures n != CreateConversation && n != GenerateResponse && n != SaveToDb ==> r.Update? && r.effects == []
  {
    match n
    case AssignId => N.AssignUserId(s)
    case CheckConversation => N.ShouldCreateNewConversation(s)
    case CreateConversation => N.CreateNewConversation(env, s)
    case GetInput => N.GetUserInput(s)
    case GetHistory => N.GetHistoryFromDb(env, s)
    case GetRelevantContext => N.GetRelevantContext(env, s)
    case GenerateResponse => N.GenerateResponse(env, s)
    case SaveToDb => N.SaveChatToDb(s)
  }

  /**
   * The outcome of a run: the last state, the exception that stopped it (if any), the nodes
   * called, and the writes and model calls made, in order (the reads are not recorded).
   */
  datatype Run = Run(state: State, raised: Option<Exception>, trace: seq<Node>, effects: seq<N.Effect>)

  /**
   * Runs the graph from node n on state s until END or an exception. The run starts at n
   * and, since every edge approaches END, calls each node at most once.
   */
  function RunFrom(env: N.Env, n: Node, s: State): (r: Run)
    ensures n == End <==> r.trace == []
    ensures n != End ==> r.trace[0] == n
    ensures |r.trace| <= Rank(n)
    ensures r.raised.Some? ==> r.trace != []
    decreases Rank(n)
  {
    if n == End then Run(s, None, [], [])
    else
      match CallNode(env, n, s)
      case Raised(m, eff) => Run(s, Some(m), [n], eff)
      case Update(u, eff) =>
        var rest := RunFrom(env, Next(n, Merge(s, u)), Merge(s, u));
        Run(rest.state, rest.raised, [n] + rest.trace, eff + rest.effects)
  }

  /** `graph.invoke(initial_state)`. */
  function Invoke(env: N.Env, s: State): (r: Run)
    ensures r.trace != [] && r.trace[0] == AssignId && |r.trace| <= 8
  {
    RunFrom(env, AssignId, s)
  }

  /** The nodes after the branch, always called in this order. */
  const Tail: seq<Node> := [GetInput, GetHistory, GetRelevantContext, GenerateResponse, SaveToDb]

  /** Whether save_chat_to_db writes: a connection and a conversation id. */
  predicate Saves(s: State) {
    Truthy(Get(s, DbConnection)) && Get(s, ConversationId) != NoneV
  }

  /** Whether get_relevant_context queries: a connection, a conversation id and an input. */
  predicate Queries(s: State) {
    Saves(s) && Truthy(Get(s, UserInput))
  }

  /** The state after one node of the tail, from the state that node receives. */
  function InputStep(s: State): (r: State)
    ensures Has(r, UserInput)
  {
    Merge(s, N.GetUserInput(s).update)
  }

  function HistoryStep(env: N.Env, s: State): (r: State)
    ensures Has(r, History) && (Has(s, UserInput) ==> Has(r, UserInput))
  {
    Merge(s, N.GetHistoryFromDb(env, s).update)
  }

  function ContextStep(env: N.Env, s: State): (r: State)
    ensures Has(r, RelevantHistory) && (Has(s, History) ==> Has(r, History)) && (Has(s, UserInput) ==> Has(r, UserInput))
  {
    Merge(s, N.GetRelevantContext(env, s).update)
  }

  function ResponseStep(env: N.Env, s: State): (r: State)
    requires Has(s, History) && Has(s, UserInput)
    ensures Has(r, Response) && Has(r, UserInput) && Get(r, Response).Str?
  {
    Merge(s, N.GenerateResponse(env, s).update)
  }

  /** The state generate_response receives, from the state get_input receives. */
  function AfterContext(env: N.Env, s: State): (t: State)
    ensures Has(t, History) && Has(t, UserInput) && Has(t, RelevantHistory)
  {
    ContextStep(env, HistoryStep(env, InputStep(s)))
  }

  /** The state the tail ends with. */
  function AfterGenerate(env: N.Env, s: State): State {
    ResponseStep(env, AfterContext(env, s))
  }

  /** The prompt generate_response formats in the tail. */
  function TailPrompt(env: N.Env, s: State): N.Prompt {
    N.PromptFor(AfterContext(env, s))
  }

  /** A run prefixed by one more node and its calls. */
  function Prepend(n: Node, effects: seq<N.Effect>, r: Run): Run {
    Run(r.state, r.raised, [n] + r.trace, effects + r.effects)
  }

  /** The shape of a run from generate_response: the model call, then save_to_db's calls, then END or its exception. */
  function FinishWrap(prompt: N.Prompt, saves: seq<N.Effect>, last: State, raised: Option<Exception>): Run {
    Prepend(GenerateResponse, [N.AskedModel(prompt)], Prepend(SaveToDb, saves, Run(last, raised, [], [])))
  }

  /** The exception a node result carries, if any. */
  function RaisedBy(r: N.NodeResult): Option<Exception> {
    if r.Raised? then Some(r.exception) else None
  }

  /** The state after a node result: merged on an update, as it was on an exception. */
  function StateAfter(s: State, r: N.NodeResult): State {
    if r.Update? then Merge(s, r.update) else s
  }

  /** The shape of a run from get_input, given the run from generate_response. */
  function TailWrap(r: Run): Run {
    Prepend(GetInput, [], Prepend(GetHistory, [], Prepend(GetRelevantContext, [], r)))
  }

  /**
   * The run from generate_response with state t: the model is asked once, then
   * save_chat_to_db ends it, returning or raising.
   */
  function Finish(env: N.Env, t: State): Run
    requires Has(t, History) && Has(t, UserInput)
  {
    var t' := ResponseStep(env, t);
    var saved := N.SaveChatToDb(t');
    FinishWrap(N.PromptFor(t), saved.effects, StateAfter(t', saved), RaisedBy(saved))
  }

  /** The run from get_input on. */
  function TailRun(env: N.Env, s: State): Run {
    TailWrap(Finish(env, AfterContext(env, s)))
  }

  /** A run of a node that returns an update: that node, its calls, then the run from the next node. */
  lemma Step(env: N.Env, n: Node, s: State)
    requires n != End && CallNode(env, n, s).Update?
    ensures var u := CallNode(env, n, s);
      RunFrom(env, n, s) == Prepend(n, u.effects, RunFrom(env, Next(n, Merge(s, u.update)), Merge(s, u.update)))
  {
  }

  lemma GenerateRun(env: N.Env, t: State)
    requires Has(t, History) && Has(t, UserInput)
    ensures RunFrom(env, GenerateResponse, t) == Finish(env, t)
  {
    var t' := ResponseStep(env, t);
    var saved := N.SaveChatToDb(t');
    assert RunFrom(env, SaveToDb, t') == Prepend(SaveToDb, saved.effects, Run(StateAfter(t', saved), RaisedBy(saved), [], []));
    assert RunFrom(env, GenerateResponse, t) == Prepend(GenerateResponse, [N.AskedModel(N.PromptFor(t))], RunFrom(env, SaveToDb, t'));
  }

  lemma {:induction false} ContextRun(env: N.Env, t: State)
    requires Has(t, History) && Has(t, UserInput)
    ensures RunFrom(env, GetRelevantContext, t) == Prepend(GetRelevantContext, [], Finish(env, ContextStep(env, t)))
  {
    GenerateRun(env, ContextStep(env, t));
  }

  lemma {:induction false} HistoryRun(env: N.Env, t: State)
    requires Has(t, UserInput)
    ensures RunFrom(env, GetHistory, t) ==
              Prepend(GetHistory, [], Prepend(GetRelevantContext, [], Finish(env, ContextStep(env, HistoryStep(env, t)))))
  {
    ContextRun(env, HistoryStep(env, t));
  }

  /** From get_input on, the run is the tail run. */
  lemma {:induction false} TailSteps(env: N.Env, s: State)
    ensures RunFrom(env, GetInput, s) == TailRun(env, s)
  {
    HistoryRun(env, InputStep(s));
  }

  /**
   * The tail ends in the state generate_response left (saving changes nothing), and raises
   * only what save_chat_to_db raises.
   */
  lemma {:induction false} TailState(env: N.Env, s: State)
    ensures TailRun(env, s).state == AfterGenerate(env, s)
    ensures TailRun(env, s).raised == RaisedBy(N.SaveChatToDb(AfterGenerate(env, s)))
  {
    N.SaveKeepsState(AfterGenerate(env, s));
  }

  /**
   * The tail raises exactly when it saves and the input cannot be sliced: the response is
   * always a string, so the user's message is the one that fails.
   */
  lemma {:induction false} TailRaises(env: N.Env, s: State)
    ensures RaisedBy(N.SaveChatToDb(AfterGenerate(env, s))) ==
              if Saves(s) && !Sliceable(Get(s, UserInput)) then Some(NotSubscriptable(Get(s, UserInput))) else None
  {
    TailKeepsIdentity(env, s, DbConnection);
    TailKeepsIdentity(env, s, ConversationId);
  }

  lemma WrapTrace(prompt: N.Prompt, saves: seq<N.Effect>, last: State, raised: Option<Exception>)
    ensures TailWrap(FinishWrap(prompt, saves, last, raised)).trace == Tail
    ensures TailWrap(FinishWrap(prompt, saves, last, raised)).effects == [N.AskedModel(prompt)] + saves
  {
  }

  /**
   * The tail calls get_input, get_history, get_relevant_context, generate_response and
   * save_to_db, in this order; it asks the model once, with the prompt of the state it
   * reached, and then makes save_chat_to_db's calls.
   */
  lemma {:induction false} TailTraceAndEffects(env: N.Env, s: State)
    ensures TailRun(env, s).trace == Tail
    ensures TailRun(env, s).effects == [N.AskedModel(TailPrompt(env, s))] + N.SaveChatToDb(AfterGenerate(env, s)).effects
  {
    var t := AfterContext(env, s);
    var t' := ResponseStep(env, t);
    var saved := N.SaveChatToDb(t');
    WrapTrace(N.PromptFor(t), saved.effects, StateAfter(t', saved), RaisedBy(saved));
  }

  /** The keys that identify the turn pass through the tail unchanged. */
  lemma TailKeepsIdentity(env: N.Env, s: State, k: Key)
    requires k == UserId || k == ConversationId || k == DbConnection || k == ShouldCreate
    ensures Get(AfterGenerate(env, s), k) == Get(s, k)
    ensures Get(AfterGenerate(env, s), UserInput) == Get(s, UserInput)
  {
    var a := InputStep(s);
    var b := HistoryStep(env, a);
    var c := ContextStep(env, b);
    assert Get(c, k) == Get(s, k) && Get(c, UserInput) == Get(s, UserInput);
  }

  /**
   * The tail asks with memory exactly when there is a connection, an id and an input and
   * the similarity search found rows.
   */
  lemma {:induction false} TailPromptChoice(env: N.Env, s: State)
    ensures TailPrompt(env, s).WithMemory? <==>
              Queries(s) && env.relevant(Get(s, DbConnection), Get(s, ConversationId), Get(s, UserInput)) != []
  {
    if Queries(s) {
      N.JoinLinesEmpty(env.relevant(Get(s, DbConnection), Get(s, ConversationId), Get(s, UserInput)));
    }
  }

  /** The tail always asks with the input as it was on entry. */
  lemma TailPromptInput(env: N.Env, s: State)
    ensures TailPrompt(env, s).input == Get(s, UserInput)
  {
  }

  /**
   * When the model replies, the reply is the response, and "__error__" is present at the end
   * exactly when it was on entry, with the same value.
   */
  lemma TailReplied(env: N.Env, s: State)
    requires env.llm(TailPrompt(env, s)).Reply?
    ensures Get(AfterGenerate(env, s), Response) == Str(env.llm(TailPrompt(env, s)).content)
    ensures Entry(AfterGenerate(env, s), ErrorKey) == Entry(s, ErrorKey)
  {
  }

  /** When the model fails, the response is the canned text and "__error__" holds the model's message. */
  lemma TailModelError(env: N.Env, s: State)
    requires env.llm(TailPrompt(env, s)).LlmError?
    ensures Get(AfterGenerate(env, s), Response) == Str(N.ErrorOccurred)
    ensures Get(AfterGenerate(env, s), ErrorKey) == ErrorDict(N.GenerationErrorPrefix + env.llm(TailPrompt(env, s)).message)
  {
  }

  /**
   * The tail saves the input and then the response exactly when there is a connection and an
   * id and the input can be sliced; with an input that cannot, save_message raises before
   * its INSERT and nothing is saved.
   */
  lemma {:induction false} TailSaves(env: N.Env, s: State)
    ensures !Saves(s) || !Sliceable(Get(s, UserInput)) ==> N.SaveChatToDb(AfterGenerate(env, s)).effects == []
    ensures Saves(s) && Sliceable(Get(s, UserInput)) ==>
              N.SaveChatToDb(AfterGenerate(env, s)).effects ==
                [N.SavedMessage(Get(s, DbConnection), Get(s, ConversationId), N.UserRole, Get(s, UserInput)),
                 N.SavedMessage(Get(s, DbConnection), Get(s, ConversationId), N.AssistantRole, Get(AfterGenerate(env, s), Response))]
  {
    TailKeepsIdentity(env, s, DbConnection);
    TailKeepsIdentity(env, s, ConversationId);
  }

  /** Whether check_conversation routes to create_conversation (for a state without "__error__"). */
  predicate Creates(s: State) {
    Get(s, ConversationId) == NoneV
  }

  function AssignStep(s: State): (r: State)
    ensures Get(r, UserId) == StateDict(s)
  {
    Merge(s, N.AssignUserId(s).update)
  }

  function CheckStep(s: State): (r: State)
    ensures Has(r, ShouldCreate)
  {
    Merge(s, N.ShouldCreateNewConversation(s).update)
  }

  /** The state after assign_id and check_conversation. */
  function AfterCheck(s: State): (t: State)
    ensures Has(t, ErrorKey) <==> Has(s, ErrorKey)
    ensures Get(t, UserId) == StateDict(s) && Get(t, ConversationId) == Get(s, ConversationId)
    ensures Get(t, DbConnection) == Get(s, DbConnection) && Get(t, UserInput) == Get(s, UserInput)
    ensures Truthy(Get(t, ShouldCreate)) <==> Creates(s)
  {
    CheckStep(AssignStep(s))
  }

  /** The state after create_conversation, which never raises on the state assign_id made. */
  function CreateStep(env: N.Env, t: State): State
    requires Get(t, UserId).StateDict?
  {
    Merge(t, N.CreateNewConversation(env, t).update)
  }

  /** The state get_input receives, for a run that starts without "__error__". */
  function BeforeTail(env: N.Env, s: State): State {
    var t := AfterCheck(s);
    if Creates(s) then CreateStep(env, t) else t
  }

  /** The nodes before get_input. */
  function HeadTrace(s: State): seq<Node> {
    [AssignId, CheckConversation] + (if Creates(s) then [CreateConversation] else [])
  }

  /** The outside calls before get_input: at most the conversation creation. */
  function HeadEffects(env: N.Env, s: State): seq<N.Effect> {
    if Creates(s) && Truthy(Get(s, DbConnection)) then [N.CreatedConversation(Get(s, DbConnection), Get(s, UserId))]
    else []
  }

  /** The shape of a run from assign_id, given its calls before get_input and the run from get_input. */
  function HeadWrap(creates: bool, created: seq<N.Effect>, tail: Run): Run {
    Prepend(AssignId, [], Prepend(CheckConversation, [], if creates then Prepend(CreateConversation, created, tail) else tail))
  }

  /** The run of a graph invocation that starts without "__error__". */
  function HeadRun(env: N.Env, s: State): Run {
    HeadWrap(Creates(s), HeadEffects(env, s), TailRun(env, BeforeTail(env, s)))
  }

  lemma {:induction false} CreateRun(env: N.Env, t: State)
    requires Get(t, UserId).StateDict?
    ensures N.CreateNewConversation(env, t).Update?
    ensures RunFrom(env, CreateConversation, t) ==
              Prepend(CreateConversation, N.CreateNewConversation(env, t).effects, TailRun(env, CreateStep(env, t)))
  {
    TailSteps(env, CreateStep(env, t));
  }

  lemma {:induction false} CheckRun(env: N.Env, s: State)
    requires !Has(s, ErrorKey)
    ensures HeadRun(env, s) == Prepend(AssignId, [], RunFrom(env, CheckConversation, AssignStep(s)))
  {
    var t := AssignStep(s);
    assert CheckStep(t) == AfterCheck(s);
    Step(env, CheckConversation, t);
    if Creates(s) {
      CreateRun(env, AfterCheck(s));
      assert N.CreateNewConversation(env, AfterCheck(s)).effects == HeadEffects(env, s);
    } else {
      TailSteps(env, AfterCheck(s));
    }
  }

  /** A graph invocation that starts without "__error__" runs as HeadRun says. */
  lemma {:induction false} HeadSteps(env: N.Env, s: State)
    requires !Has(s, ErrorKey)
    ensures Invoke(env, s) == HeadRun(env, s)
  {
    Step(env, AssignId, s);
    CheckRun(env, s);
  }

  /**
   * Before get_input: with an id, nothing happens to it; without one and with a connection,
   * a conversation is created for the user id the run started with (although assign_id has
   * replaced "user_id" by a copy of the whole state) and its id, or None, recorded; without
   * a connection, the id is None and "__error__" is set.
   */
  lemma HeadOutcome(env: N.Env, s: State)
    requires !Has(s, ErrorKey)
    ensures var b := BeforeTail(env, s);
      && Get(b, DbConnection) == Get(s, DbConnection) && Get(b, UserInput) == Get(s, UserInput)
      && Get(b, UserId) == StateDict(s)
      && (!Creates(s) ==> Get(b, ConversationId) == Get(s, ConversationId) && !Has(b, ErrorKey) && HeadEffects(env, s) == [])
      && (Creates(s) && Truthy(Get(s, DbConnection)) ==>
            Get(b, ConversationId) == N.FromOption(env.createConversation(Get(s, DbConnection), Get(s, UserId))) &&
            !Has(b, ErrorKey))
      && (Creates(s) && !Truthy(Get(s, DbConnection)) ==>
            Get(b, ConversationId) == NoneV && Get(b, ErrorKey) == ErrorDict(N.NoConnectionMessage) && HeadEffects(env, s) == [])
  {
    var t := AfterCheck(s);
    assert N.UserIdArgument(Get(t, UserId)) == Success(Get(s, UserId));
  }

  /** The head adds its nodes and its calls in front of the tail run. */
  lemma {:induction false} HeadShape(creates: bool, created: seq<N.Effect>, tail: Run)
    requires !creates ==> created == []
    ensures var r := HeadWrap(creates, created, tail);
      && r.state == tail.state && r.raised == tail.raised
      && r.trace == [AssignId, CheckConversation] + (if creates then [CreateConversation] else []) + tail.trace
      && r.effects == created + tail.effects
  {
    if creates {
      assert [AssignId] + ([CheckConversation] + ([CreateConversation] + tail.trace)) ==
             [AssignId, CheckConversation] + [CreateConversation] + tail.trace;
    } else {
      assert [AssignId] + ([CheckConversation] + tail.trace) == [AssignId, CheckConversation] + [] + tail.trace;
    }
  }

  /**
   * Whether the tail of a run that starts without "__error__" saves: there is a connection,
   * and a conversation id the run started with or creation returned.
   */
  predicate SavesRun(env: N.Env, s: State) {
    Truthy(Get(s, DbConnection)) && (!Creates(s) || env.createConversation(Get(s, DbConnection), Get(s, UserId)).Some?)
  }

  lemma {:induction false} SavesBeforeTail(env: N.Env, s: State)
    requires !Has(s, ErrorKey)
    ensures Saves(BeforeTail(env, s)) <==> SavesRun(env, s)
    ensures Get(BeforeTail(env, s), UserInput) == Get(s, UserInput)
  {
    HeadOutcome(env, s);
  }

  /** What save_chat_to_db raises at the end of a run that starts without "__error__". */
  lemma {:induction false} FinalRaises(env: N.Env, s: State)
    requires !Has(s, ErrorKey)
    ensures RaisedBy(N.SaveChatToDb(Final(env, s))) ==
              if SavesRun(env, s) && !Sliceable(Get(s, UserInput)) then Some(NotSubscriptable(Get(s, UserInput))) else None
  {
    SavesBeforeTail(env, s);
    TailRaises(env, BeforeTail(env, s));
  }

  /**
   * A run that starts without "__error__" ends in the state `Final` names: an error set on
   * the way (by create_conversation or the model) does not stop it. It raises only when it
   * saves and the input cannot be sliced.
   */
  lemma {:induction false} RunOutcome(env: N.Env, s: State)
    requires !Has(s, ErrorKey)
    ensures Invoke(env, s).state == Final(env, s)
    ensures Invoke(env, s).raised ==
              if SavesRun(env, s) && !Sliceable(Get(s, UserInput)) then Some(NotSubscriptable(Get(s, UserInput))) else None
  {
    var b := BeforeTail(env, s);
    HeadSteps(env, s);
    HeadShape(Creates(s), HeadEffects(env, s), TailRun(env, b));
    TailState(env, b);
    FinalRaises(env, s);
  }

  /**
   * A run that starts without "__error__" visits the branch then the tail: create_conversation
   * exactly when there is no conversation id. Its writes and model calls are the creation
   * (when there is a connection), the model, then the saves.
   */
  lemma {:induction false} RunShape(env: N.Env, s: State)
    requires !Has(s, ErrorKey)
    ensures Invoke(env, s).trace == HeadTrace(s) + Tail
    ensures Invoke(env, s).effects ==
              HeadEffects(env, s) + ([N.AskedModel(Prompt(env, s))] +
                                     N.SaveChatToDb(AfterGenerate(env, BeforeTail(env, s))).effects)
  {
    var b := BeforeTail(env, s);
    HeadSteps(env, s);
    HeadShape(Creates(s), HeadEffects(env, s), TailRun(env, b));
    TailTraceAndEffects(env, b);
  }

  /**
   * A connected run without a conversation id creates one for the user id it started with;
   * when creation returns None, only the model is called afterwards.
   */
  lemma {:induction false} CreationFailedCalls(env: N.Env, s: State)
    requires !Has(s, ErrorKey) && Creates(s) && Truthy(Get(s, DbConnection))
    requires env.createConversation(Get(s, DbConnection), Get(s, UserId)).None?
    ensures Invoke(env, s).effects ==
              [N.CreatedConversation(Get(s, DbConnection), Get(s, UserId)), N.AskedModel(Prompt(env, s))]
  {
    var b := BeforeTail(env, s);
    RunShape(env, s);
    HeadOutcome(env, s);
    TailSaves(env, b);
  }

  /**
   * When creation returns an id, the run saves the input and then the response under it; an
   * input that cannot be sliced makes the first save raise, and nothing is saved.
   */
  lemma {:induction false} CreatedCalls(env: N.Env, s: State)
    requires !Has(s, ErrorKey) && Creates(s) && Truthy(Get(s, DbConnection))
    requires env.createConversation(Get(s, DbConnection), Get(s, UserId)).Some?
    ensures !Sliceable(Get(s, UserInput)) ==>
      Invoke(env, s).effects == [N.CreatedConversation(Get(s, DbConnection), Get(s, UserId)), N.AskedModel(Prompt(env, s))]
    ensures var id := env.createConversation(Get(s, DbConnection), Get(s, UserId)).value;
      Sliceable(Get(s, UserInput)) ==>
      Invoke(env, s).effects ==
        [N.CreatedConversation(Get(s, DbConnection), Get(s, UserId)), N.AskedModel(Prompt(env, s)),
         N.SavedMessage(Get(s, DbConnection), Int(id), N.UserRole, Get(s, UserInput)),
         N.SavedMessage(Get(s, DbConnection), Int(id), N.AssistantRole, Get(Final(env, s), Response))]
  {
    RunShape(env, s);
    CreatedSaves(env, s);
    var head := [N.CreatedConversation(Get(s, DbConnection), Get(s, UserId))];
    assert HeadEffects(env, s) == head;
    assert Invoke(env, s).effects == head + ([N.AskedModel(Prompt(env, s))] + N.SaveChatToDb(Final(env, s)).effects);
    if !Sliceable(Get(s, UserInput)) {
      assert Invoke(env, s).effects == head + [N.AskedModel(Prompt(env, s))];
    }
  }

  /**
   * The saves of a run whose creation returned an id: under that id, on the connection the
   * run started with, or none when the input cannot be sliced.
   */
  lemma {:induction false} CreatedSaves(env: N.Env, s: State)
    requires !Has(s, ErrorKey) && Creates(s) && Truthy(Get(s, DbConnection))
    requires env.createConversation(Get(s, DbConnection), Get(s, UserId)).Some?
    ensures !Sliceable(Get(s, UserInput)) ==> N.SaveChatToDb(Final(env, s)).effects == []
    ensures var id := env.createConversation(Get(s, DbConnection), Get(s, UserId)).value;
      Sliceable(Get(s, UserInput)) ==>
      N.SaveChatToDb(Final(env, s)).effects ==
        [N.SavedMessage(Get(s, DbConnection), Int(id), N.UserRole, Get(s, UserInput)),
         N.SavedMessage(Get(s, DbConnection), Int(id), N.AssistantRole, Get(Final(env, s), Response))]
  {
    HeadOutcome(env, s);
    TailSaves(env, BeforeTail(env, s));
  }


  /** The prompt of a run that starts without "__error__". */
  function Prompt(env: N.Env, s: State): N.Prompt {
    TailPrompt(env, BeforeTail(env, s))
  }

  /** The model's answer in a run that starts without "__error__". */
  function Reply(env: N.Env, s: State): N.LlmReply {
    env.llm(Prompt(env, s))
  }

  /** The state a run that starts without "__error__" ends with. */
  function Final(env: N.Env, s: State): State {
    AfterGenerate(env, BeforeTail(env, s))
  }

  /**
   * A connected run that starts without "__error__" and gets a reply ends with the reply as
   * the response and without "__error__".
   */
  lemma {:induction false} RepliedOutcome(env: N.Env, s: State)
    requires !Has(s, ErrorKey) && Truthy(Get(s, DbConnection)) && Reply(env, s).Reply?
    ensures !Has(Final(env, s), ErrorKey) && Get(Final(env, s), Response) == Str(Reply(env, s).content)
  {
    HeadOutcome(env, s);
    TailReplied(env, BeforeTail(env, s));
  }

  /** When the model raises, the run ends with the canned response and "__error__" holding the model's message. */
  lemma {:induction false} ModelErrorOutcome(env: N.Env, s: State)
    requires !Has(s, ErrorKey) && Reply(env, s).LlmError?
    ensures Get(Final(env, s), ErrorKey) == ErrorDict(N.GenerationErrorPrefix + Reply(env, s).message)
    ensures Get(Final(env, s), Response) == Str(N.ErrorOccurred)
  {
    TailModelError(env, BeforeTail(env, s));
  }

  /**
   * A connected run that starts without "__error__" ends with the conversation id it
   * started with, or, when it had none, with the id creation returned (None on failure).
   */
  lemma {:induction false} ConnectedConversation(env: N.Env, s: State)
    requires !Has(s, ErrorKey) && Truthy(Get(s, DbConnection))
    ensures Get(Final(env, s), ConversationId) ==
              if Creates(s) then N.FromOption(env.createConversation(Get(s, DbConnection), Get(s, UserId)))
              else Get(s, ConversationId)
  {
    HeadOutcome(env, s);
    TailKeepsIdentity(env, BeforeTail(env, s), ConversationId);
  }

  /**
   * A state that already holds "__error__" stops right after check_conversation, without
   * raising and without any outside call.
   */
  lemma ErrorBeforeBranch(env: N.Env, s: State)
    requires Has(s, ErrorKey)
    ensures Invoke(env, s) == Run(AfterCheck(s), None, [AssignId, CheckConversation], [])
  {
  }
}
