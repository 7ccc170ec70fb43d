/**
 * The local loop of apps/chat/src/chat.py (`if __name__ == "__main__"`): it reads a user id
 * and an input per turn, runs the graph on that user's remembered conversation, prints the
 * outcome, remembers the conversation id of a successful turn, and stops after an exit word.
 */
module ChatRepl {
  import opened Wrappers
  import opened ChatState
  import N = ChatNodes
  import G = ChatGraph

  /**
   * One turn: the two lines read, the connection `get_db_connection()` yields (None on
   * failure), and the database and model as they answer during this turn.
   */
  datatype Turn = Turn(userId: string, input: string, conn: Option<nat>, env: N.Env)

  /** The line printed for a turn. */
  datatype Printed =
    | ConnectionError                 // "Error connecting to database."
    | Bot(response: Value)            // "Bot: <response>"
    | BotError(error: Value)          // "Bot Error: <error>"
    | InvocationError(message: string) // "[ERROR] Error during graph invocation: <message>"

  /** What a turn prints, the conversations remembered after it, and whether the loop stops. */
  datatype Outcome = Outcome(printed: Printed, conversations: map<string, Value>, stop: bool)

  /** What a sequence of turns prints, and the conversations remembered at the end. */
  datatype Transcript = Transcript(printed: seq<Printed>, conversations: map<string, Value>)

  const ExitWords: seq<string> := ["exit", "quit", "bye"]

  function LowerChar(c: char): char {
    if 'A' <= c <= 'Z' then (c as int + 32) as char else c
  }

  /** `s.lower()` on the ASCII letters. */
  function Lower(s: string): (l: string)
    ensures |l| == |s|
    ensures forall i :: 0 <= i < |s| ==> l[i] == LowerChar(s[i])
  {
    if s == [] then [] else [LowerChar(s[0])] + Lower(s[1..])
  }

  /** The exit words are already lower-case, so lowering leaves them as they are. */
  lemma ExitWordsAreLower()
    ensures forall w :: w in ExitWords ==> Lower(w) == w
  {
    assert Lower("exit") == "exit";
    assert Lower("quit") == "quit";
    assert Lower("bye") == "bye";
  }

  /** `user_input.lower() in ["exit", "quit", "bye"]`: the whole line, without stripping. */
  predicate IsExitWord(input: string)
    ensures input in ExitWords ==> IsExitWord(input)
    ensures IsExitWord(input) ==> |input| == 3 || |input| == 4
  {
    ExitWordsAreLower();
    Lower(input) in ExitWords
  }

  /** The remembered ids are conversation ids returned by creation: integers. */
  predicate Remembered(conversations: map<string, Value>) {
    forall u :: u in conversations ==> conversations[u].Int?
  }

  /** `conversations.get(user_id)`. */
  function Lookup(conversations: map<string, Value>, userId: string): (v: Value)
    ensures userId !in conversations ==> v == NoneV
    ensures userId in conversations ==> v == conversations[userId]
  {
    if userId in conversations then conversations[userId] else NoneV
  }

  /** The initial state of a connected turn; "conversation_id" is present, None for a new user. */
  function InitialState(conversations: map<string, Value>, t: Turn, conn: nat): (s: State)
    ensures !Has(s, ErrorKey) && Get(s, DbConnection) == Connection(conn)
    ensures Get(s, UserId) == Str(t.userId) && Get(s, UserInput) == Str(t.input)
    ensures Get(s, ConversationId) == Lookup(conversations, t.userId)
  {
    With(With(With(Only(UserId, Str(t.userId)), UserInput, Str(t.input)), ConversationId, Lookup(conversations, t.userId)),
         DbConnection, Connection(conn))
  }

  /**
   * What the try block does with a finished invocation: an exception is shown as the
   * invocation error; otherwise "__error__" or the response is printed, then the id is
   * remembered only when it is not None and there is no "__error__". A missing "response"
   * raises KeyError inside the block, before anything is remembered.
   */
  function Report(conversations: map<string, Value>, userId: string, run: G.Run): (o: Outcome)
    ensures o.conversations != conversations ==> o.printed.Bot? && !Has(run.state, ErrorKey) && run.raised.None?
  {
    if run.raised.Some? then Outcome(InvocationError(ExceptionText(run.raised.value)), conversations, false)
    else if Has(run.state, ErrorKey) then Outcome(BotError(At(run.state, ErrorKey)), conversations, false)
    else if !Has(run.state, Response) then Outcome(InvocationError(KeyErrorText(Response)), conversations, false)
    else
      var id := Get(run.state, ConversationId);
      Outcome(Bot(At(run.state, Response)), if id != NoneV then conversations[userId := id] else conversations, false)
  }

  /**
   * One iteration of the loop. Without a connection the turn prints the connection error
   * and `continue`s, so even an exit word does not stop the loop.
   */
  function TurnOutcome(conversations: map<string, Value>, t: Turn): (o: Outcome)
    ensures t.conn.None? ==> o == Outcome(ConnectionError, conversations, false)
    ensures t.conn.Some? ==> o.stop == IsExitWord(t.input)
  {
    if t.conn.None? then Outcome(ConnectionError, conversations, false)
    else
      var o := Report(conversations, t.userId, G.Invoke(t.env, InitialState(conversations, t, t.conn.value)));
      o.(stop := IsExitWord(t.input))
  }

  /** Whether the loop ends after this turn. */
  predicate Stops(t: Turn) {
    t.conn.Some? && IsExitWord(t.input)
  }

  /** The loop over a finite script of turns: it stops after the first turn that stops it. */
  function Session(conversations: map<string, Value>, turns: seq<Turn>): (t: Transcript)
    ensures |t.printed| <= |turns|
    ensures t.printed == [] <==> turns == []
    decreases |turns|
  {
    if turns == [] then Transcript([], conversations)
    else
      var o := TurnOutcome(conversations, turns[0]);
      if o.stop then Transcript([o.printed], o.conversations)
      else
        var rest := Session(o.conversations, turns[1..]);
        Transcript([o.printed] + rest.printed, rest.conversations)
  }

  /** The run of a connected turn. */
  function TurnRun(conversations: map<string, Value>, t: Turn): G.Run
    requires t.conn.Some?
  {
    G.Invoke(t.env, InitialState(conversations, t, t.conn.value))
  }

  /** The model's answer in a connected turn. */
  function TurnReply(conversations: map<string, Value>, t: Turn): N.LlmReply
    requires t.conn.Some?
  {
    G.Reply(t.env, InitialState(conversations, t, t.conn.value))
  }

  /** A turn stops the loop exactly when it is connected and its input is an exit word. */
  lemma {:induction false} TurnStops(conversations: map<string, Value>, t: Turn)
    ensures TurnOutcome(conversations, t).stop <==> Stops(t)
  {
  }

  /** A returning user's turn (an integer id remembered, as Valid keeps) goes on with that conversation: no creation is attempted. */
  lemma {:induction false} KnownUserTrace(conversations: map<string, Value>, t: Turn)
    requires t.conn.Some? && t.userId in conversations && conversations[t.userId].Int?
    ensures TurnRun(conversations, t).trace == [G.AssignId, G.CheckConversation] + G.Tail
  {
    G.RunShape(t.env, InitialState(conversations, t, t.conn.value));
  }

  /** A returning user's answered turn prints the reply and remembers the same conversation. */
  lemma {:induction false} KnownUserTurn(conversations: map<string, Value>, t: Turn)
    requires t.conn.Some? && t.userId in conversations && conversations[t.userId].Int?
    requires TurnReply(conversations, t).Reply?
    ensures TurnOutcome(conversations, t).printed == Bot(Str(TurnReply(conversations, t).content))
    ensures TurnOutcome(conversations, t).conversations == conversations
  {
    var s := InitialState(conversations, t, t.conn.value);
    G.RunOutcome(t.env, s);
    G.RepliedOutcome(t.env, s);
    G.ConnectedConversation(t.env, s);
  }

  /**
   * A new user's answered turn prints the reply and remembers the id creation returned for
   * the user's name; when creation returned None, nothing is remembered.
   */
  lemma {:induction false} NewUserTurn(conversations: map<string, Value>, t: Turn)
    requires t.conn.Some? && t.userId !in conversations
    requires TurnReply(conversations, t).Reply?
    ensures var created := t.env.createConversation(Connection(t.conn.value), Str(t.userId));
      TurnOutcome(conversations, t) ==
        Outcome(Bot(Str(TurnReply(conversations, t).content)),
                if created.Some? then conversations[t.userId := Int(created.value)] else conversations,
                IsExitWord(t.input))
  {
    var s := InitialState(conversations, t, t.conn.value);
    G.RunOutcome(t.env, s);
    G.RepliedOutcome(t.env, s);
    G.ConnectedConversation(t.env, s);
  }

  /** When the model fails, the turn prints the "__error__" dictionary and remembers nothing. */
  lemma {:induction false} ModelErrorTurn(conversations: map<string, Value>, t: Turn)
    requires t.conn.Some? && TurnReply(conversations, t).LlmError?
    ensures TurnOutcome(conversations, t) ==
              Outcome(BotError(ErrorDict(N.GenerationErrorPrefix + TurnReply(conversations, t).message)),
                      conversations, IsExitWord(t.input))
  {
    var s := InitialState(conversations, t, t.conn.value);
    G.RunOutcome(t.env, s);
    G.ModelErrorOutcome(t.env, s);
  }

  /** How many turns the loop reads: up to and including the first that stops it, or all of them. */
  function Consumed(turns: seq<Turn>): nat {
    if turns == [] then 0 else if Stops(turns[0]) then 1 else 1 + Consumed(turns[1..])
  }

  /** A session prints one line for each turn it reads. */
  lemma {:induction false} SessionPrintsPerTurn(conversations: map<string, Value>, turns: seq<Turn>)
    ensures |Session(conversations, turns).printed| == Consumed(turns)
    decreases |turns|
  {
    if turns != [] {
      var o := TurnOutcome(conversations, turns[0]);
      TurnStops(conversations, turns[0]);
      if !o.stop {
        SessionPrintsPerTurn(o.conversations, turns[1..]);
      }
    }
  }

  /** The loop reads every turn up to the first that stops it, and no turn after it. */
  lemma {:induction false} ConsumedStopsFirst(turns: seq<Turn>)
    ensures var n := Consumed(turns);
      && n <= |turns|
      && (forall i :: 0 <= i < n - 1 ==> !Stops(turns[i]))
      && (n < |turns| ==> 0 < n && Stops(turns[n - 1]))
  {
    if turns != [] && !Stops(turns[0]) {
      var rest := turns[1..];
      ConsumedStopsFirst(rest);
      forall i | 1 <= i < Consumed(rest)
        ensures !Stops(turns[i])
      {
        assert turns[i] == rest[i - 1];
      }
      if Consumed(rest) < |rest| {
        assert turns[Consumed(rest)] == rest[Consumed(rest) - 1];
      }
    }
  }

  /** The remembered conversations only grow: a user, once remembered, stays remembered. */
  lemma {:induction false} SessionRemembers(conversations: map<string, Value>, turns: seq<Turn>)
    ensures conversations.Keys <= Session(conversations, turns).conversations.Keys
    decreases |turns|
  {
    if turns != [] {
      var o := TurnOutcome(conversations, turns[0]);
      if !o.stop {
        SessionRemembers(o.conversations, turns[1..]);
      }
    }
  }

  /**
   * The id a connected turn ends with is the user's remembered id, the id creation returned,
   * or None: so only integers are ever remembered.
   */
  lemma {:induction false} RememberedId(conversations: map<string, Value>, t: Turn)
    requires Remembered(conversations) && t.conn.Some?
    ensures var id := Get(G.Invoke(t.env, InitialState(conversations, t, t.conn.value)).state, ConversationId);
      id == NoneV || id.Int?
  {
    var s := InitialState(conversations, t, t.conn.value);
    G.RunOutcome(t.env, s);
    G.ConnectedConversation(t.env, s);
  }

  /** The loop's memory: the `conversations` dictionary. */
  class Repl {
    var conversations: map<string, Value>

    predicate Valid()
      reads this
    {
      Remembered(conversations)
    }

    /** `conversations = {}`. */
    constructor()
      ensures conversations == map[] && Valid()
    {
      conversations := map[];
    }

    /** One iteration of `while True`: what it prints, and whether it breaks. */
    method Step(t: Turn) returns (printed: Printed, stop: bool)
      requires Valid()
      modifies this
      ensures Valid()
      ensures TurnOutcome(old(conversations), t) == Outcome(printed, conversations, stop)
    {
      if t.conn.None? {
        printed, stop := ConnectionError, false;
        return;
      }
      var result := G.Invoke(t.env, InitialState(conversations, t, t.conn.value));
      if result.raised.Some? {
        printed := InvocationError(ExceptionText(result.raised.value));
      } else if Has(result.state, ErrorKey) {
        printed := BotError(At(result.state, ErrorKey));
      } else if !Has(result.state, Response) {
        printed := InvocationError(KeyErrorText(Response));
      } else {
        printed := Bot(At(result.state, Response));
        var id := Get(result.state, ConversationId);
        if id != NoneV {
          RememberedId(conversations, t);
          conversations := conversations[t.userId := id];
        }
      }
      stop := IsExitWord(t.input);
    }

    /** The loop, over a finite script of turns; it ends early at `break`. */
    method Loop(turns: seq<Turn>) returns (printed: seq<Printed>)
      requires Valid()
      modifies this
      ensures Valid()
      ensures Session(old(conversations), turns) == Transcript(printed, conversations)
    {
      printed := [];
      var i := 0;
      while i < |turns|
        invariant 0 <= i <= |turns| && Valid()
        invariant Session(old(conversations), turns) ==
                  Transcript(printed + Session(conversations, turns[i..]).printed, Session(conversations, turns[i..]).conversations)
        decreases |turns| - i
      {
        assert turns[i..][1..] == turns[i + 1..];
        var line, stop := Step(turns[i]);
        printed := printed + [line];
        if stop {
          return;
        }
        i := i + 1;
      }
    }
  }
}
