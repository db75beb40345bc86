/**
 * The exercise page's chat with the AI coach: the storage key of the
 * conversation, the guard on asking, the window of earlier messages sent
 * with a question, the text shown when a question fails, and the message
 * log with its persistence.
 */
module AiCoach {
  import opened Base
  import opened JsText
  import opened JsValue
  import Api

  datatype Role = User | Assistant

  /** One chat message. */
  datatype Message = Message(id: string, role: Role, content: string)

  const KeyPrefix := "chat_history_"

  /** `STORAGE_KEY`: the prefix, then the exercise name with every run of space characters made one `_`. */
  function StorageKey(exerciseName: string): (k: string)
    ensures IsPrefix(KeyPrefix, k) && k[|KeyPrefix|..] == ReplaceSpaceRuns(exerciseName, "_")
  {
    KeyPrefix + ReplaceSpaceRuns(exerciseName, "_")
  }

  /** The key never holds a space character after its prefix, and a name without spaces is kept as it is. */
  lemma StorageKeyShape(exerciseName: string)
    ensures NoSpace(StorageKey(exerciseName)[|KeyPrefix|..])
    ensures NoSpace(exerciseName) ==> StorageKey(exerciseName) == KeyPrefix + exerciseName
  {
    assert NoSpace("_");
    ReplaceSpaceRunsNoSpace(exerciseName, "_");
    if NoSpace(exerciseName) {
      ReplaceSpaceRunsIdentity(exerciseName, "_");
    }
  }

  /** The warning sign (U+26A0 with variation selector U+FE0F) that starts every failure message. */
  const Warning := "\U{26A0}\U{FE0F}"

  /** `m.content.startsWith('⚠️')`. */
  predicate IsFailure(m: Message) {
    |m.content| >= 2 && m.content[0] == '\U{26A0}' && m.content[1] == '\U{FE0F}'
  }

  /** The messages that may go back to the coach as history: every one that is not a failure, in order. */
  function Sendable(ms: seq<Message>): (r: seq<Message>)
    ensures |r| <= |ms|
    ensures forall i :: 0 <= i < |r| ==> !IsFailure(r[i])
    ensures forall i :: 0 <= i < |ms| && !IsFailure(ms[i]) ==> ms[i] in r
  {
    if ms == [] then []
    else (if IsFailure(ms[0]) then [] else [ms[0]]) + Sendable(ms[1..])
  }

  /** Nothing is added: every message selected is one of the log's own non-failure messages. */
  lemma {:induction false} SendableFromLog(ms: seq<Message>)
    ensures forall x :: x in Sendable(ms) ==> x in ms && !IsFailure(x)
  {
    if ms != [] {
      SendableFromLog(ms[1..]);
      forall x | x in Sendable(ms)
        ensures x in ms && !IsFailure(x)
      {
        if x !in Sendable(ms[1..]) {
          assert x == ms[0];
        }
      }
    }
  }

  /** Selecting sendable messages works piece by piece, so it keeps their order. */
  lemma {:induction false} SendableConcat(a: seq<Message>, b: seq<Message>)
    ensures Sendable(a + b) == Sendable(a) + Sendable(b)
  {
    if a != [] {
      SendableConcat(a[1..], b);
      assert (a + b)[1..] == a[1..] + b;
    } else {
      assert a + b == b;
    }
  }

  /** `historicoRecente`: the last six sendable messages (all of them when there are fewer), in order. */
  function HistoryWindow(ms: seq<Message>): (r: seq<Message>)
    ensures |r| == if |Sendable(ms)| <= 6 then |Sendable(ms)| else 6
    ensures r == Sendable(ms)[|Sendable(ms)| - |r|..]
    ensures forall i :: 0 <= i < |r| ==> !IsFailure(r[i])
  {
    var f := Sendable(ms);
    if |f| <= 6 then f else f[|f| - 6..]
  }

  /** A failure message added to the log never changes the history sent with later questions. */
  lemma FailureNeverResent(ms: seq<Message>, m: Message)
    requires IsFailure(m)
    ensures HistoryWindow(ms + [m]) == HistoryWindow(ms)
  {
    SendableConcat(ms, [m]);
    assert Sendable([m]) == [] + Sendable([]);
    assert Sendable(ms + [m]) == Sendable(ms);
  }

  /** An ordinary message added to the log becomes the newest message of the window. */
  lemma AnswerJoinsWindow(ms: seq<Message>, m: Message)
    requires !IsFailure(m)
    ensures var w := HistoryWindow(ms + [m]); |w| > 0 && w[|w| - 1] == m
  {
    SendableConcat(ms, [m]);
    assert Sendable([m]) == [m] + Sendable([]);
    assert Sendable(ms + [m]) == Sendable(ms) + [m];
  }

  const Throttled := "Calma, atleta! Muitas mensagens seguidas. Respire 1 minuto."
  const NoConnection := "Erro de conexão"
  const LoginFirst := "Faça login para falar com o O2."
  const Unknown := "Erro desconhecido."

  /** What became of the coach request. */
  datatype CoachReply =
    | Answered(resposta: string)             // an ok response whose `resposta` is text
    | Refused(status: int, body: Api.Body)   // a response that is not ok
    | Thrown(message: string)                // the request rejected, or an ok body could not be read

  /** The error body as the page sees it: `{}` when it is not JSON. */
  function ErrorData(body: Api.Body): Json {
    match body
    case Parsed(v) => v
    case Unparsable => JObj([])
  }

  /**
   * The text after the warning sign when a question fails: a missing token
   * asks to log in; a 429 is the throttle message; another refusal gives the
   * error body's `detail`, else its `erro`, else "Erro de conexão", printed
   * as `String` prints it; a refusal with a `null` body fails reading the
   * property, with the engine's `nullRead` text. An empty message becomes
   * "Erro desconhecido.".
   */
  function FailureText(loggedIn: bool, reply: CoachReply, nullRead: string): (t: string)
    requires !loggedIn || !reply.Answered?
    ensures t != ""
    ensures !loggedIn ==> t == LoginFirst
    ensures loggedIn && reply.Refused? && reply.status == 429 ==> t == Throttled
    ensures loggedIn && reply.Refused? && reply.status != 429 && ErrorData(reply.body) != JNull ==>
      var data := ErrorData(reply.body);
      var v := Or(Or(Prop(data, "detail"), Prop(data, "erro")), Some(JStr(NoConnection))).value;
      (Present(Prop(data, "detail")) ==> v == Prop(data, "detail").value)
      && (!Present(Prop(data, "detail")) && Present(Prop(data, "erro")) ==> v == Prop(data, "erro").value)
      && (ToJsString(v) != "" ==> t == ToJsString(v))
      && (ToJsString(v) == "" ==> t == Unknown)
    ensures loggedIn && reply.Refused? && reply.status != 429 && ErrorData(reply.body) == JNull ==>
      t == OrElse(nullRead, Unknown)
    ensures loggedIn && reply.Thrown? ==> t == OrElse(reply.message, Unknown)
  {
    if !loggedIn then LoginFirst
    else
      match reply
      case Thrown(m) => OrElse(m, Unknown)
      case Refused(status, body) =>
        if status == 429 then Throttled
        else
          var data := ErrorData(body);
          if data == JNull then OrElse(nullRead, Unknown)
          else OrElse(ToJsString(Or(Or(Prop(data, "detail"), Prop(data, "erro")), Some(JStr(NoConnection))).value), Unknown)
  }

  /** A failure message: the warning sign, a space, the text. */
  function FailureContent(text: string): (c: string)
    ensures IsFailure(Message("", Assistant, c))
  {
    Warning + " " + text
  }

  /** A token is stored and not empty. */
  predicate LoggedIn(token: Option<string>) {
    token.Some? && token.value != ""
  }

  /** The assistant's message after a question: the answer, or the warning sign and the failure text. */
  function ReplyContent(token: Option<string>, reply: CoachReply, nullRead: string): (c: string)
    ensures LoggedIn(token) && reply.Answered? ==> c == reply.resposta
    ensures !(LoggedIn(token) && reply.Answered?) ==>
      c == FailureContent(FailureText(LoggedIn(token), reply, nullRead)) && IsFailure(Message("", Assistant, c))
  {
    if LoggedIn(token) && reply.Answered? then reply.resposta
    else FailureContent(FailureText(LoggedIn(token), reply, nullRead))
  }

  /**
   * The body sent with question `q` after the log `before`: the question,
   * the exercise, whether this is the first message, and the history
   * window of `before` (which never holds `q` itself); nothing without a
   * token.
   */
  function RequestFor(q: string, token: Option<string>, name: string, context: string, before: seq<Message>): (r: Option<CoachRequest>)
    ensures r.Some? <==> LoggedIn(token)
    ensures r.Some? ==>
      && r.value.pergunta == q && r.value.primeiraMensagem == (before == [])
      && r.value.nomeExercicio == name && r.value.contextoExercicio == context
      && r.value.historico == HistoryWindow(before)
      && |r.value.historico| <= 6
      && forall i :: 0 <= i < |r.value.historico| ==> !IsFailure(r.value.historico[i])
  {
    if LoggedIn(token) then Some(CoachRequest(q, name, context, before == [], HistoryWindow(before))) else None
  }

  /** The request body of a question. */
  datatype CoachRequest = CoachRequest(
    pergunta: string,
    nomeExercicio: string,
    contextoExercicio: string,
    primeiraMensagem: bool,
    historico: seq<Message>)

  /** How one message is written to storage by `JSON.stringify`. */
  function MessageJson(m: Message): Json {
    JObj([Member("id", JStr(m.id)),
          Member("role", JStr(if m.role == User then "user" else "assistant")),
          Member("content", JStr(m.content))])
  }

  function LogJson(ms: seq<Message>): Json {
    JArr(seq(|ms|, i requires 0 <= i < |ms| => MessageJson(ms[i])))
  }

  /** The storage after the persistence effect: the log under the key, or no key when the log is empty. */
  function Persisted(storage: map<string, string>, key: string, ms: seq<Message>): (s: map<string, string>)
    ensures ms != [] ==> key in s && s[key] == Stringify(LogJson(ms))
    ensures ms == [] ==> key !in s
    ensures forall k :: k != key ==> (k in s <==> k in storage) && (k in s ==> s[k] == storage[k])
  {
    if ms != [] then storage[key := Stringify(LogJson(ms))] else storage - {key}
  }

  /** The chat panel of one exercise. */
  class Coach {
    const exerciseName: string
    const exerciseContext: string
    var messages: seq<Message>
    var inputValue: string
    var isLoading: bool
    var isOpen: bool
    var storage: map<string, string>

    constructor(name: string, context: string, store: map<string, string>)
      ensures exerciseName == name && exerciseContext == context
      ensures messages == [] && inputValue == "" && !isLoading && !isOpen && storage == store
    {
      exerciseName := name;
      exerciseContext := context;
      messages := [];
      inputValue := "";
      isLoading := false;
      isOpen := false;
      storage := store;
    }

    /** The persistence effect that follows every change of the log. */
    method Persist()
      modifies this`storage
      ensures storage == Persisted(old(storage), StorageKey(exerciseName), messages)
    {
      var key := StorageKey(exerciseName);
      if messages != [] {
        storage := storage[key := Stringify(LogJson(messages))];
      } else {
        storage := storage - {key};
      }
    }

    /** `confirmClearChat`: the log is emptied and its key removed. */
    method ClearChat()
      modifies this`messages, this`storage
      ensures messages == [] && storage == old(storage) - {StorageKey(exerciseName)}
    {
      messages := [];
      storage := storage - {StorageKey(exerciseName)};
    }

    /**
     * `handleAskAi`: asks `question` (when given and not empty) or the
     * trimmed input. A blank question, or any question while one is in
     * flight, changes nothing. Otherwise the user's message is appended,
     * then exactly one reply from the assistant (the answer, or the warning
     * sign and the failure text), and the log is persisted; `sent` is the
     * request body, absent when there is no token to send it with. `userId`
     * and `replyId` are the generated message ids.
     */
    method Ask(question: string, token: Option<string>, reply: CoachReply, nullRead: string,
               userId: string, replyId: string) returns (sent: Option<CoachRequest>)
      modifies this`messages, this`inputValue, this`isLoading, this`isOpen, this`storage
      ensures var q := OrElse(question, Trim(old(inputValue)));
        if q == "" || old(isLoading) then
          && sent == None
          && messages == old(messages) && inputValue == old(inputValue) && isLoading == old(isLoading)
          && isOpen == old(isOpen) && storage == old(storage)
        else
          && sent == RequestFor(q, token, exerciseName, exerciseContext, old(messages))
          && messages == old(messages) + [Message(userId, User, q), Message(replyId, Assistant, ReplyContent(token, reply, nullRead))]
          && inputValue == "" && !isLoading && isOpen
          && storage == Persisted(old(storage), StorageKey(exerciseName), messages)
    {
      var before := messages;
      var q := OrElse(question, Trim(inputValue));
      if q == "" || isLoading {
        return None;
      }
      inputValue := "";
      isOpen := true;
      sent := RequestFor(q, token, exerciseName, exerciseContext, before);
      var content := ReplyContent(token, reply, nullRead);
      var asked, answered := Message(userId, User, q), Message(replyId, Assistant, content);
      Record(asked, answered);
      assert messages == before + [asked, answered];
    }

    /** Appends the question and its reply, clears the in-flight flag and persists the log. */
    method Record(asked: Message, answered: Message)
      modifies this`messages, this`isLoading, this`storage
      ensures messages == old(messages) + [asked, answered] && !isLoading
      ensures storage == Persisted(old(storage), StorageKey(exerciseName), messages)
    {
      messages := messages + [asked];
      // the request is in flight between the question and its reply
      isLoading := true;
      messages := messages + [answered];
      isLoading := false;
      Persist();
    }
  }
}
