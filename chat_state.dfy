/**
 * The values that flow through the chat graph of apps/chat/src/chat.py: the state
 * dictionary, the Python values stored in it, and the truthiness rules the nodes test.
 */
module ChatState {
  import opened Wrappers

  /**
   * The keys the state dictionary can hold: the seven ChatState fields, plus the two keys
   * the nodes add outside the TypedDict ("should_create" and "__error__").
   */
  datatype Key =
    | UserId | UserInput | ConversationId | History | Response | RelevantHistory | DbConnection
    | ShouldCreate | ErrorKey

  /** The Python spelling of each key. */
  function KeyName(k: Key): string {
    match k
    case UserId => "user_id"
    case UserInput => "user_input"
    case ConversationId => "conversation_id"
    case History => "history"
    case Response => "response"
    case RelevantHistory => "relevant_history"
    case DbConnection => "db_connection"
    case ShouldCreate => "should_create"
    case ErrorKey => "__error__"
  }

  /** One message of the conversation history (BaseMessage(role, content, type)). */
  datatype Message = Message(role: string, content: string, messageType: string)

  /** The Python values the state holds. */
  datatype Value =
    | NoneV
    | Bool(b: bool)
    | Int(i: int)
    | Str(s: string)
    /** An open psycopg2 connection; the number only tells connections apart. */
    | Connection(id: nat)
    /** The history list. */
    | Messages(messages: seq<Message>)
    /** A dictionary `{"error": message}`, how every node and the handler report an error. */
    | ErrorDict(error: string)
    /** A dictionary with the state's keys: what assign_user_id stores under "user_id". */
    | StateDict(entries: State)

  /**
   * A dictionary over the nine keys: the entry of each key, None when the key is absent.
   * Node updates are dictionaries of the same kind.
   */
  datatype State = State(userId: Option<Value>, userInput: Option<Value>, conversationId: Option<Value>,
                         history: Option<Value>, response: Option<Value>, relevantHistory: Option<Value>,
                         dbConnection: Option<Value>, shouldCreate: Option<Value>, error: Option<Value>)

  /** The empty dictionary. */
  const Empty: State := State(None, None, None, None, None, None, None, None, None)

  /** The entry of key k. */
  function Entry(s: State, k: Key): Option<Value> {
    match k
    case UserId => s.userId
    case UserInput => s.userInput
    case ConversationId => s.conversationId
    case History => s.history
    case Response => s.response
    case RelevantHistory => s.relevantHistory
    case DbConnection => s.dbConnection
    case ShouldCreate => s.shouldCreate
    case ErrorKey => s.error
  }

  /** `k in s`. */
  predicate Has(s: State, k: Key) {
    Entry(s, k).Some?
  }

  /** `s[k]`, for a key that is present. */
  function At(s: State, k: Key): Value
    requires Has(s, k)
  {
    Entry(s, k).value
  }

  /** `state.get(k)`: None when the key is absent. */
  function Get(s: State, k: Key): (v: Value)
    ensures !Has(s, k) ==> v == NoneV
    ensures Has(s, k) ==> v == At(s, k)
  {
    if Has(s, k) then At(s, k) else NoneV
  }

  /** `s[k] = v`: key k maps to v and every other entry stays. */
  function With(s: State, k: Key, v: Value): (r: State)
    ensures Entry(r, k) == Some(v)
  {
    match k
    case UserId => s.(userId := Some(v))
    case UserInput => s.(userInput := Some(v))
    case ConversationId => s.(conversationId := Some(v))
    case History => s.(history := Some(v))
    case Response => s.(response := Some(v))
    case RelevantHistory => s.(relevantHistory := Some(v))
    case DbConnection => s.(dbConnection := Some(v))
    case ShouldCreate => s.(shouldCreate := Some(v))
    case ErrorKey => s.(error := Some(v))
  }

  /** The one-entry dictionary `{k: v}`. */
  function Only(k: Key, v: Value): State {
    With(Empty, k, v)
  }

  function Pick(u: Option<Value>, s: Option<Value>): Option<Value> {
    if u.Some? then u else s
  }

  /** `s.update(u)`, the merge LangGraph applies to a node's return value. */
  function Merge(s: State, u: State): (r: State)
    ensures u == Empty ==> r == s
    ensures s == Empty ==> r == u
  {
    State(Pick(u.userId, s.userId), Pick(u.userInput, s.userInput), Pick(u.conversationId, s.conversationId),
          Pick(u.history, s.history), Pick(u.response, s.response), Pick(u.relevantHistory, s.relevantHistory),
          Pick(u.dbConnection, s.dbConnection), Pick(u.shouldCreate, s.shouldCreate), Pick(u.error, s.error))
  }

  /** After a merge, each key holds the update's entry when it has one, and otherwise the old entry. */
  lemma {:induction false} MergeEntry(s: State, u: State, k: Key)
    ensures Has(u, k) ==> Entry(Merge(s, u), k) == Entry(u, k)
    ensures !Has(u, k) ==> Entry(Merge(s, u), k) == Entry(s, k)
  {
    match k
    case UserId =>
    case UserInput =>
    case ConversationId =>
    case History =>
    case Response =>
    case RelevantHistory =>
    case DbConnection =>
    case ShouldCreate =>
    case ErrorKey =>
  }

  /** Setting a key leaves every other key's entry as it was. */
  lemma {:induction false} WithOther(s: State, k: Key, v: Value, k': Key)
    requires k' != k
    ensures Entry(With(s, k, v), k') == Entry(s, k')
  {
    match k
    case UserId =>
    case UserInput =>
    case ConversationId =>
    case History =>
    case Response =>
    case RelevantHistory =>
    case DbConnection =>
    case ShouldCreate =>
    case ErrorKey =>
  }

  /** Merging a dictionary into itself changes nothing. */
  lemma MergeSelf(s: State)
    ensures Merge(s, s) == s
  {
  }

  /** The dictionary form of `d.get(k)` on a value that is a dict. */
  function DictGet(d: Value, k: Key): Value
    requires d.ErrorDict? || d.StateDict?
  {
    if d.StateDict? then Get(d.entries, k) else NoneV
  }

  /**
   * Python truthiness: None, False, 0, "" and the empty list are false; a connection and
   * the one-key error dictionary are true; a state dictionary is true unless empty.
   */
  predicate Truthy(v: Value) {
    match v
    case NoneV => false
    case Bool(b) => b
    case Int(i) => i != 0
    case Str(s) => s != ""
    case Connection(_) => true
    case Messages(m) => m != []
    case ErrorDict(_) => true
    case StateDict(m) => m != Empty
  }

  /** The name in an AttributeError message for a value of this type. */
  function TypeName(v: Value): string {
    match v
    case NoneV => "NoneType"
    case Bool(_) => "bool"
    case Int(_) => "int"
    case Str(_) => "str"
    case Connection(_) => "psycopg2.extensions.connection"
    case Messages(_) => "list"
    case ErrorDict(_) => "dict"
    case StateDict(_) => "dict"
  }

  /**
   * The exceptions a run raises: a missing key, `.get` on a value that has no such method,
   * or `content[:50]` on a value that cannot be sliced.
   */
  datatype Exception = KeyError(key: Key) | NoGetAttribute(receiver: Value) | NotSubscriptable(receiver: Value)

  const Quote: string := "'"
  const NoGetSuffix: string := "' object has no attribute 'get'"
  const NotSubscriptableSuffix: string := "' object is not subscriptable"

  /** `str(KeyError(k))`: the key's repr. */
  function KeyErrorText(k: Key): string {
    Quote + KeyName(k) + Quote
  }

  /** `str(e)`, which the handler and the local loop put into their messages. */
  function ExceptionText(x: Exception): string {
    match x
    case KeyError(k) => KeyErrorText(k)
    case NoGetAttribute(v) => Quote + TypeName(v) + NoGetSuffix
    case NotSubscriptable(v) => Quote + TypeName(v) + NotSubscriptableSuffix
  }

  /** Whether `v[:50]` is defined: strings and lists can be sliced, the other values cannot. */
  predicate Sliceable(v: Value) {
    v.Str? || v.Messages?
  }
}
