/**
  Concrete conversations with an `OllamaClient`, each proved from the client's contracts alone.
  The daemons are stand-ins: `Replying` and `Generating` give one fixed answer, `Refusing` fails every
  call, and `Echoing` answers with the `messages` value of the payload it is sent.
*/
module Scenarios {
  import opened Wrappers
  import opened Json
  import opened Gateway
  import opened Sessions
  import opened Client

  /** A daemon that answers every chat request with the assistant text `text`. */
  function Replying(text: string): Daemon
  {
    (url: string, p: Payload) => Ok(Obj(map["message" := EncodeMsg(Msg(Assistant, Str(text)))]))
  }

  /** A daemon that answers every generate request with the text `text`. */
  function Generating(text: string): Daemon
  {
    (url: string, p: Payload) => Ok(Obj(map["response" := Str(text), "done" := Bool(true)]))
  }

  /** A daemon that cannot be reached. */
  function Refusing(detail: string): Daemon
  {
    (url: string, p: Payload) => Err(detail)
  }

  /** A daemon that answers with the transcript it was sent, so the reply shows what was sent. */
  function Echoing(): Daemon
  {
    (url: string, p: Payload) =>
      Ok(Obj(map["message" := Obj(map["content" := if "messages" in p then p["messages"] else Null])]))
  }

  /** A fresh session answered once: the transcript is the user entry and its answer. */
  method OneTurn()
  {
    var client := new OllamaClient(DefaultBaseUrl);
    client.InitChat("X", "m", None);
    var r := client.ChatMessage("X", "hi", map[], Replying("hello"));
    assert r == Ok(Str("hello"));
    assert client.chatSessions["X"] == Session("m", [UserMsg("hi"), Msg(Assistant, Str("hello"))]);
  }

  /** A turn on an id that was never created raises SessionNotFound and creates nothing. */
  method UnknownSession()
  {
    var client := new OllamaClient(DefaultBaseUrl);
    var r := client.ChatMessage("unknown-id", "hi", map[], Replying("hello"));
    assert r == Err(SessionNotFound("unknown-id"));
    assert client.chatSessions == map[];
  }

  /**
    A failed turn leaves the unanswered user entry behind, and the retry sends it again
    in front of the new one.
  */
  method FailedThenRetried()
  {
    var client := new OllamaClient(DefaultBaseUrl);
    client.InitChat("X", "m", Some(""));
    var r := client.ChatMessage("X", "hi", map[], Refusing("connection refused"));
    assert r == Err(ChatApiError("connection refused"));
    assert client.chatSessions["X"].messages == [UserMsg("hi")];
    Retried(client);
  }

  /** The retry of a turn whose user entry "hi" went unanswered. */
  method Retried(client: OllamaClient)
    requires client.Valid()
    requires "X" in client.chatSessions && client.chatSessions["X"].messages == [UserMsg("hi")]
    modifies client
  {
    assert client.chatSessions["X"].messages + [UserMsg("again")] == [UserMsg("hi"), UserMsg("again")];
    var r := client.ChatMessage("X", "again", map[], Echoing());
    assert r == Ok(Arr(EncodeMessages([UserMsg("hi"), UserMsg("again")])));
  }

  /** A stateless query returns the generated text and leaves the session table as it was. */
  method Stateless()
  {
    var client := new OllamaClient(DefaultBaseUrl);
    client.InitChat("X", "m", Some("be brief"));
    var table := client.chatSessions;
    var r := client.SingleQuery("m", "2+2?", map[], Generating("4"));
    assert r == Ok(Str("4"));
    assert client.chatSessions == table;
  }

  /** Closing a session, once or twice, makes its id unknown again. */
  method InitThenClose()
  {
    var client := new OllamaClient(DefaultBaseUrl);
    client.InitChat("X", "m", Some("be brief"));
    assert client.chatSessions["X"].messages == [Msg(System, Str("be brief"))];
    client.CleanupChat("X");
    client.CleanupChat("X");
    client.CleanupChat("never-created");
    assert client.chatSessions == map[];
    var r := client.ChatMessage("X", "hi", map[], Replying("hello"));
    assert r == Err(SessionNotFound("X"));
  }

  /** Two sessions on the same model: a turn on one leaves the other as it was. */
  method Isolation()
  {
    var client := new OllamaClient(DefaultBaseUrl);
    client.InitChat("A", "m", None);
    client.InitChat("B", "m", None);
    var r := client.ChatMessage("A", "hi", map[], Replying("hello"));
    assert client.chatSessions["B"] == Session("m", []);
    assert |client.chatSessions["A"].messages| == 2;
  }

  /** Caller parameters override the reserved keys of the chat payload. */
  method ParametersOverride()
  {
    var client := new OllamaClient(DefaultBaseUrl);
    client.InitChat("X", "m", None);
    var r := client.ChatMessage("X", "hi", map["messages" := Arr([]), "stream" := Bool(true)], Echoing());
    assert r == Ok(Arr([]));
    assert client.chatSessions["X"].messages == [UserMsg("hi"), Msg(Assistant, Arr([]))];
  }
}
