/**
 * lambda_handler of apps/chat/src/chat.py: one chat turn per event, always on a new
 * conversation, answered with the value of `{"response": ...}`.
 */
module ChatHandler {
  import opened Wrappers
  import opened ChatState
  import N = ChatNodes
  import G = ChatGraph

  /** The event: its "input" and "user_id" entries, each possibly absent. */
  datatype Event = Event(input: Option<Value>, userId: Option<Value>)

  const DefaultUserId: string := "default_user"
  const ConnectFailedMessage: string := "Failed to connect to the database."
  const InvocationErrorPrefix: string := "Error during graph invocation: "

  /** `event.get("user_id", "default_user")`. */
  function UserIdOf(e: Event): (v: Value)
    ensures e.userId.None? ==> v == Str(DefaultUserId)
    ensures e.userId.Some? ==> v == e.userId.value
  {
    if e.userId.Some? then e.userId.value else Str(DefaultUserId)
  }

  /** `event.get("input")`. */
  function InputOf(e: Event): (v: Value)
    ensures e.input.None? ==> v == NoneV
    ensures e.input.Some? ==> v == e.input.value
  {
    if e.input.Some? then e.input.value else NoneV
  }

  /** The initial state: no "conversation_id", so every event starts a conversation. */
  function InitialState(e: Event, conn: nat): (s: State)
    ensures !Has(s, ErrorKey) && !Has(s, ConversationId)
    ensures Get(s, UserId) == UserIdOf(e) && Get(s, UserInput) == InputOf(e) && Get(s, DbConnection) == Connection(conn)
  {
    With(With(Only(UserId, UserIdOf(e)), UserInput, InputOf(e)), DbConnection, Connection(conn))
  }

  /**
   * The response for a finished invocation: an exception becomes the invocation error; an
   * "__error__" entry wins over "response"; a missing "response" raises KeyError inside the
   * try block, which becomes the invocation error too.
   */
  function Respond(run: G.Run): (r: Value)
    ensures run.raised.Some? ==> r == ErrorDict(InvocationErrorPrefix + ExceptionText(run.raised.value))
    ensures run.raised.None? && Has(run.state, ErrorKey) ==> r == At(run.state, ErrorKey)
    ensures run.raised.None? && !Has(run.state, ErrorKey) && Has(run.state, Response) ==> r == At(run.state, Response)
    ensures run.raised.None? && !Has(run.state, ErrorKey) && !Has(run.state, Response) ==>
              r == ErrorDict(InvocationErrorPrefix + KeyErrorText(Response))
  {
    if run.raised.Some? then ErrorDict(InvocationErrorPrefix + ExceptionText(run.raised.value))
    else if Has(run.state, ErrorKey) then At(run.state, ErrorKey)
    else if Has(run.state, Response) then At(run.state, Response)
    else ErrorDict(InvocationErrorPrefix + KeyErrorText(Response))
  }

  /**
   * lambda_handler, with `get_db_connection()` as the connection it yields (None when the
   * secret or the connection failed). The value returned is that of the "response" key.
   */
  function LambdaHandler(env: N.Env, e: Event, conn: Option<nat>): (r: Value)
    ensures conn.None? ==> r == ErrorDict(ConnectFailedMessage)
  {
    if conn.None? then ErrorDict(ConnectFailedMessage)
    else Respond(G.Invoke(env, InitialState(e, conn.value)))
  }

  /** The creation a connected event makes: every event starts without a conversation id. */
  function Created(env: N.Env, e: Event, conn: nat): Option<int> {
    env.createConversation(Connection(conn), UserIdOf(e))
  }

  /**
   * Whether a connected event raises: save_message fails on an input that cannot be sliced
   * (an absent "input" gives None), and it is reached only when creation returned an id.
   */
  predicate HandlerRaises(env: N.Env, e: Event, conn: nat) {
    Created(env, e, conn).Some? && !Sliceable(InputOf(e))
  }

  /** The graph facts about a connected event's initial state. */
  lemma {:induction false} ConnectedStart(env: N.Env, e: Event, conn: nat)
    ensures var s := InitialState(e, conn);
      && !Has(s, ErrorKey) && G.Creates(s) && Truthy(Get(s, DbConnection))
      && (G.SavesRun(env, s) <==> Created(env, e, conn).Some?)
  {
  }

  /** A connected event whose run raises answers with the invocation error of that exception. */
  lemma {:induction false} HandlerRaisedResponse(env: N.Env, e: Event, conn: nat)
    requires HandlerRaises(env, e, conn)
    ensures LambdaHandler(env, e, Some(conn)) ==
              ErrorDict(InvocationErrorPrefix + ExceptionText(NotSubscriptable(InputOf(e))))
  {
    ConnectedStart(env, e, conn);
    G.RunOutcome(env, InitialState(e, conn));
  }

  /**
   * An event without "input" whose conversation was created answers with the TypeError of
   * `None[:50]` in save_message.
   */
  lemma {:induction false} MissingInputResponse(env: N.Env, e: Event, conn: nat)
    requires e.input.None? && Created(env, e, conn).Some?
    ensures LambdaHandler(env, e, Some(conn)) ==
              ErrorDict(InvocationErrorPrefix + (Quote + "NoneType" + NotSubscriptableSuffix))
  {
    assert InputOf(e) == NoneV;
    HandlerRaisedResponse(env, e, conn);
  }

  /**
   * A connected event that does not raise answers with the model's reply, or when the model
   * fails, with the "__error__" dictionary generate_response set.
   */
  lemma {:induction false} HandlerResponse(env: N.Env, e: Event, conn: nat)
    requires !HandlerRaises(env, e, conn)
    ensures var reply := G.Reply(env, InitialState(e, conn));
      && (reply.Reply? ==> LambdaHandler(env, e, Some(conn)) == Str(reply.content))
      && (reply.LlmError? ==> LambdaHandler(env, e, Some(conn)) == ErrorDict(N.GenerationErrorPrefix + reply.message))
  {
    var s := InitialState(e, conn);
    ConnectedStart(env, e, conn);
    G.RunOutcome(env, s);
    if G.Reply(env, s).Reply? {
      G.RepliedOutcome(env, s);
    } else {
      G.ModelErrorOutcome(env, s);
    }
  }

  /**
   * A connected event runs every node, creating a conversation for its user id (the
   * default one when absent); it raises exactly as HandlerRaises says.
   */
  lemma {:induction false} HandlerTrace(env: N.Env, e: Event, conn: nat)
    ensures G.Invoke(env, InitialState(e, conn)).raised ==
              if HandlerRaises(env, e, conn) then Some(NotSubscriptable(InputOf(e))) else None
    ensures G.Invoke(env, InitialState(e, conn)).trace == [G.AssignId, G.CheckConversation, G.CreateConversation] + G.Tail
  {
    var s := InitialState(e, conn);
    ConnectedStart(env, e, conn);
    assert Get(s, UserInput) == InputOf(e);
    G.RunOutcome(env, s);
    G.RunShape(env, s);
    assert G.HeadTrace(s) == [G.AssignId, G.CheckConversation, G.CreateConversation];
  }

  /** A connected event asks the model with the event's input. */
  lemma {:induction false} HandlerPrompt(env: N.Env, e: Event, conn: nat)
    ensures G.Prompt(env, InitialState(e, conn)).input == InputOf(e)
  {
    var s := InitialState(e, conn);
    G.HeadOutcome(env, s);
    G.TailPromptInput(env, G.BeforeTail(env, s));
  }

  /**
   * The calls of a connected event: the creation and the model, then, when creation returned
   * an id and the input can be sliced, the input and the response saved under it; otherwise
   * nothing is saved.
   */
  lemma {:induction false} HandlerCalls(env: N.Env, e: Event, conn: nat)
    ensures Created(env, e, conn).None? || !Sliceable(InputOf(e)) ==>
      G.Invoke(env, InitialState(e, conn)).effects ==
        [N.CreatedConversation(Connection(conn), UserIdOf(e)), N.AskedModel(G.Prompt(env, InitialState(e, conn)))]
    ensures var created := Created(env, e, conn);
      created.Some? && Sliceable(InputOf(e)) ==>
        G.Invoke(env, InitialState(e, conn)).effects ==
          [N.CreatedConversation(Connection(conn), UserIdOf(e)), N.AskedModel(G.Prompt(env, InitialState(e, conn))),
           N.SavedMessage(Connection(conn), Int(created.value), N.UserRole, InputOf(e)),
           N.SavedMessage(Connection(conn), Int(created.value), N.AssistantRole,
                          Get(G.Final(env, InitialState(e, conn)), Response))]
  {
    var s := InitialState(e, conn);
    ConnectedStart(env, e, conn);
    if Created(env, e, conn).None? {
      G.CreationFailedCalls(env, s);
    } else {
      G.CreatedCalls(env, s);
    }
  }
}
