/**
 * The node functions of apps/chat/src/chat.py. Each takes the current state and returns
 * the update LangGraph merges into it, or the exception it raises; the database helpers
 * and the Bedrock model are oracles.
 */
module ChatNodes {
  import opened Wrappers
  import opened ChatState

  /** A row of get_conversation_history. */
  datatype Row = Row(role: string, content: string, messageType: string)

  /** A row of get_relevant_messages. */
  datatype RelevantRow = RelevantRow(role: string, content: string)

  /** The formatted prompt: which template, and the values substituted into it. */
  datatype Prompt =
    | WithMemory(history: Value, input: Value, relevantHistory: Value)
    | WithoutMemory(history: Value, input: Value)

  /** What `llm.invoke(prompt)` does: a reply, or an exception with its text. */
  datatype LlmReply = Reply(content: string) | LlmError(message: string)

  /**
   * The outside world one graph run sees. The database helpers of db_handler.py catch
   * psycopg2 errors themselves, so creation yields an id or None and the reads a (possibly
   * empty) list; save_message's boolean result is never read. save_message does not depend
   * on an oracle here: whether it raises is decided by its content (see SaveChatToDb).
   */
  datatype Env = Env(createConversation: (Value, Value) -> Option<int>,
                     history: (Value, Value) -> seq<Row>,
                     relevant: (Value, Value, Value) -> seq<RelevantRow>,
                     llm: Prompt -> LlmReply)

  /**
   * The writes and the model calls a run makes, in order. The reads (the history query and the
   * similarity search) are results of the Env oracles and are not recorded.
   */
  datatype Effect =
    | CreatedConversation(conn: Value, userId: Value)
    | AskedModel(prompt: Prompt)
    | SavedMessage(conn: Value, conversationId: Value, role: string, content: Value)

  /** A node either returns an update (and makes some calls) or raises (after the calls it made first). */
  datatype NodeResult = Update(update: State, effects: seq<Effect>) | Raised(exception: Exception, effects: seq<Effect>)

  const NoConnectionMessage: string := "Database connection not available."
  const ErrorOccurred: string := "An error occurred."
  const GenerationErrorPrefix: string := "Error generating response: "
  const UserRole: string := "user"
  const AssistantRole: string := "assistant"

  function FromOption(o: Option<int>): Value {
    if o.Some? then Int(o.value) else NoneV
  }

  /** create_conversation's update without a connection: no id, and "__error__" set. */
  const NoConnectionUpdate: State := With(Only(ConversationId, NoneV), ErrorKey, ErrorDict(NoConnectionMessage))

  /** generate_response's update when the model raises: the canned response and "__error__". */
  function ModelErrorUpdate(message: string): State {
    With(Only(Response, Str(ErrorOccurred)), ErrorKey, ErrorDict(GenerationErrorPrefix + message))
  }

  /**
   * assign_user_id: LangGraph passes the state as the node's argument, so what is stored
   * under "user_id" is the whole state, not the user id.
   */
  function AssignUserId(s: State): (r: NodeResult)
    ensures r.Update? && r.effects == [] && r.update == Only(UserId, StateDict(s))
    ensures Get(At(r.update, UserId).entries, UserId) == Get(s, UserId)
  {
    Update(Only(UserId, StateDict(s)), [])
  }

  /** should_create_new_conversation: create exactly when there is no conversation id (absent or None). */
  function ShouldCreateNewConversation(s: State): (r: NodeResult)
    ensures r.Update? && r.effects == [] && Has(r.update, ShouldCreate)
    ensures r.update == Only(ShouldCreate, At(r.update, ShouldCreate))
    ensures At(r.update, ShouldCreate) == Bool(true) <==> Get(s, ConversationId) == NoneV
    ensures At(r.update, ShouldCreate) == Bool(false) <==> Get(s, ConversationId) != NoneV
  {
    Update(Only(ShouldCreate, Bool(Get(s, ConversationId) == NoneV)), [])
  }

  /**
   * The user id create_new_conversation passes on: the value itself when it is a string,
   * otherwise `user_id.get("user_id")`, which fails on anything but a dict.
   */
  function UserIdArgument(v: Value): (r: Result<Value, Exception>)
    ensures v.Str? ==> r == Success(v)
    ensures v.StateDict? ==> r == Success(Get(v.entries, UserId))
    ensures r.Failure? <==> !(v.Str? || v.StateDict? || v.ErrorDict?)
  {
    if v.Str? then Success(v)
    else if v.StateDict? || v.ErrorDict? then Success(DictGet(v, UserId))
    else Failure(NoGetAttribute(v))
  }

  /** create_new_conversation. */
  function CreateNewConversation(env: Env, s: State): (r: NodeResult)
    ensures !Truthy(Get(s, DbConnection)) ==>
              r == Update(NoConnectionUpdate, [])
    ensures Truthy(Get(s, DbConnection)) && UserIdArgument(Get(s, UserId)).Success? ==>
              var conn, user := Get(s, DbConnection), UserIdArgument(Get(s, UserId)).value;
              r == Update(Only(ConversationId, FromOption(env.createConversation(conn, user))),
                          [CreatedConversation(conn, user)])
    ensures r.Raised? <==> Truthy(Get(s, DbConnection)) && UserIdArgument(Get(s, UserId)).Failure?
  {
    var conn := Get(s, DbConnection);
    if !Truthy(conn) then
      Update(NoConnectionUpdate, [])
    else
      match UserIdArgument(Get(s, UserId))
      case Failure(e) => Raised(e, [])
      case Success(user) =>
        Update(Only(ConversationId, FromOption(env.createConversation(conn, user))), [CreatedConversation(conn, user)])
  }

  function ToMessages(rows: seq<Row>): (ms: seq<Message>)
    ensures |ms| == |rows|
    ensures forall i :: 0 <= i < |rows| ==> ms[i] == Message(rows[i].role, rows[i].content, rows[i].messageType)
  {
    if rows == [] then []
    else [Message(rows[0].role, rows[0].content, rows[0].messageType)] + ToMessages(rows[1..])
  }

  /** get_history_from_db: [] without a connection or a conversation id, otherwise the stored messages. */
  function GetHistoryFromDb(env: Env, s: State): (r: NodeResult)
    ensures r.Update? && r.effects == [] && Has(r.update, History) && r.update == Only(History, At(r.update, History))
    ensures !Truthy(Get(s, DbConnection)) || Get(s, ConversationId) == NoneV ==> At(r.update, History) == Messages([])
    ensures Truthy(Get(s, DbConnection)) && Get(s, ConversationId) != NoneV ==>
              At(r.update, History) == Messages(ToMessages(env.history(Get(s, DbConnection), Get(s, ConversationId))))
  {
    var conn, id := Get(s, DbConnection), Get(s, ConversationId);
    if !Truthy(conn) || id == NoneV then Update(Only(History, Messages([])), [])
    else Update(Only(History, Messages(ToMessages(env.history(conn, id)))), [])
  }

  /** The f-string `f"{role}: {content}"`. */
  function Line(m: RelevantRow): (l: string)
    ensures |l| >= 2
  {
    m.role + ": " + m.content
  }

  /** `"\n".join(...)` over the lines of the rows. */
  function JoinLines(rows: seq<RelevantRow>): (j: string)
  {
    if rows == [] then ""
    else if |rows| == 1 then Line(rows[0])
    else Line(rows[0]) + "\n" + JoinLines(rows[1..])
  }

  /** get_relevant_context: "" unless connection, conversation id and input are all there. */
  function GetRelevantContext(env: Env, s: State): (r: NodeResult)
    ensures r.Update? && r.effects == [] && Has(r.update, RelevantHistory)
    ensures r.update == Only(RelevantHistory, At(r.update, RelevantHistory))
    ensures !Truthy(Get(s, DbConnection)) || Get(s, ConversationId) == NoneV || !Truthy(Get(s, UserInput)) ==>
              At(r.update, RelevantHistory) == Str("")
    ensures Truthy(Get(s, DbConnection)) && Get(s, ConversationId) != NoneV && Truthy(Get(s, UserInput)) ==>
              At(r.update, RelevantHistory) ==
                Str(JoinLines(env.relevant(Get(s, DbConnection), Get(s, ConversationId), Get(s, UserInput))))
  {
    var conn, id, input := Get(s, DbConnection), Get(s, ConversationId), Get(s, UserInput);
    if !Truthy(conn) || id == NoneV || !Truthy(input) then Update(Only(RelevantHistory, Str("")), [])
    else Update(Only(RelevantHistory, Str(JoinLines(env.relevant(conn, id, input)))), [])
  }

  /** The template generate_response formats: with memory exactly when relevant_history is truthy. */
  function PromptFor(s: State): (p: Prompt)
    requires Has(s, History) && Has(s, UserInput)
    ensures p.WithMemory? <==> Truthy(Get(s, RelevantHistory))
    ensures p.history == At(s, History) && p.input == At(s, UserInput)
    ensures p.WithMemory? ==> p.relevantHistory == At(s, RelevantHistory)
  {
    if Truthy(Get(s, RelevantHistory)) then WithMemory(At(s, History), At(s, UserInput), At(s, RelevantHistory))
    else WithoutMemory(At(s, History), At(s, UserInput))
  }

  /**
   * generate_response. Reading a missing "history" or "user_input" raises KeyError before the
   * model is called; an exception of the model becomes a canned response plus "__error__".
   */
  function GenerateResponse(env: Env, s: State): (r: NodeResult)
    ensures !Has(s, History) ==> r == Raised(KeyError(History), [])
    ensures Has(s, History) && !Has(s, UserInput) ==> r == Raised(KeyError(UserInput), [])
    ensures Has(s, History) && Has(s, UserInput) ==> r.Update? && r.effects == [AskedModel(PromptFor(s))]
    ensures Has(s, History) && Has(s, UserInput) && env.llm(PromptFor(s)).Reply? ==>
              r.update == Only(Response, Str(env.llm(PromptFor(s)).content))
    ensures Has(s, History) && Has(s, UserInput) && env.llm(PromptFor(s)).LlmError? ==>
              r.update == ModelErrorUpdate(env.llm(PromptFor(s)).message)
  {
    if !Has(s, History) then Raised(KeyError(History), [])
    else if !Has(s, UserInput) then Raised(KeyError(UserInput), [])
    else
      var prompt := PromptFor(s);
      match env.llm(prompt)
      case Reply(content) => Update(Only(Response, Str(content)), [AskedModel(prompt)])
      case LlmError(m) => Update(ModelErrorUpdate(m), [AskedModel(prompt)])
  }

  /** get_user_input: writes back `state.get("user_input")`, so afterwards the key is always present. */
  function GetUserInput(s: State): (r: NodeResult)
    ensures r.Update? && r.effects == [] && r.update == Only(UserInput, Get(s, UserInput))
  {
    Update(Only(UserInput, Get(s, UserInput)), [])
  }

  /**
   * save_message, as far as the graph sees it: a call with an effect, or an exception. Its
   * database errors are caught, and embed_text catches everything, returning None when
   * `text[:50]` fails; the warning for a missing embedding then evaluates `content[:50]`
   * outside any handler, so a content that cannot be sliced raises before the INSERT.
   */
  function SaveMessage(conn: Value, id: Value, role: string, content: Value): (r: Result<Effect, Exception>)
    ensures r.Success? <==> Sliceable(content)
    ensures r.Success? ==> r.value == SavedMessage(conn, id, role, content)
    ensures r.Failure? ==> r.error == NotSubscriptable(content)
  {
    if Sliceable(content) then Success(SavedMessage(conn, id, role, content)) else Failure(NotSubscriptable(content))
  }

  /**
   * save_chat_to_db: nothing saved without a connection or id; otherwise the input and then
   * the response. The whole state is returned as the update; an input that cannot be sliced
   * raises before anything is saved, a response that cannot be sliced after the input is.
   */
  function SaveChatToDb(s: State): (r: NodeResult)
    ensures !Truthy(Get(s, DbConnection)) || Get(s, ConversationId) == NoneV ==> r == Update(s, [])
    ensures Truthy(Get(s, DbConnection)) && Get(s, ConversationId) != NoneV && !Has(s, UserInput) ==>
              r == Raised(KeyError(UserInput), [])
    ensures Truthy(Get(s, DbConnection)) && Get(s, ConversationId) != NoneV && Has(s, UserInput) && !Has(s, Response) ==>
              r == Raised(KeyError(Response), [])
    ensures Truthy(Get(s, DbConnection)) && Get(s, ConversationId) != NoneV && Has(s, UserInput) && Has(s, Response) ==>
              var user := SavedMessage(Get(s, DbConnection), Get(s, ConversationId), UserRole, Get(s, UserInput));
              var bot := SavedMessage(Get(s, DbConnection), Get(s, ConversationId), AssistantRole, Get(s, Response));
              && (!Sliceable(Get(s, UserInput)) ==> r == Raised(NotSubscriptable(Get(s, UserInput)), []))
              && (Sliceable(Get(s, UserInput)) && !Sliceable(Get(s, Response)) ==>
                    r == Raised(NotSubscriptable(Get(s, Response)), [user]))
              && (Sliceable(Get(s, UserInput)) && Sliceable(Get(s, Response)) ==> r == Update(s, [user, bot]))
  {
    var conn, id := Get(s, DbConnection), Get(s, ConversationId);
    if !Truthy(conn) || id == NoneV then Update(s, [])
    else if !Has(s, UserInput) then Raised(KeyError(UserInput), [])
    else if !Has(s, Response) then Raised(KeyError(Response), [])
    else
      match SaveMessage(conn, id, UserRole, At(s, UserInput))
      case Failure(e) => Raised(e, [])
      case Success(user) =>
        match SaveMessage(conn, id, AssistantRole, At(s, Response))
        case Failure(e) => Raised(e, [user])
        case Success(bot) => Update(s, [user, bot])
  }

  /** The joined context is empty exactly when there are no rows, since every line holds ": ". */
  lemma {:induction false} JoinLinesEmpty(rows: seq<RelevantRow>)
    ensures JoinLines(rows) == "" <==> rows == []
  {
    if |rows| > 1 {
      assert |JoinLines(rows)| >= |Line(rows[0])|;
    }
  }

  /** Joining one more row in front adds its line and one newline. */
  lemma {:induction false} JoinLinesCons(row: RelevantRow, rows: seq<RelevantRow>)
    requires rows != []
    ensures JoinLines([row] + rows) == Line(row) + "\n" + JoinLines(rows)
  {
    assert ([row] + rows)[1..] == rows;
  }

  /** Saving returns the state it was given, so merging its update changes nothing. */
  lemma SaveKeepsState(s: State)
    ensures SaveChatToDb(s).Update? ==> Merge(s, SaveChatToDb(s).update) == s
  {
    MergeSelf(s);
  }
}
