/**
  The translation layer of `OllamaClient` (python_subsystem/ollama_client.py): the wire
  payloads of the daemon's /api/chat and /api/generate endpoints, the extraction of the
  reply from the daemon's answer, and the errors the client raises.
  The HTTP call itself is a `Daemon`: a function from URL and payload to the decoded
  answer body, or to the detail of whatever went wrong on the way (connection failure,
  timeout, non-success status, undecodable body).
*/
module Gateway {
  import opened Wrappers
  import opened Json

  datatype Role = System | User | Assistant

  /** One `{"role": ..., "content": ...}` entry of a transcript. */
  datatype Msg = Msg(role: Role, content: Value)

  /** A JSON object sent as a request body; caller `parameters` have the same type. */
  type Payload = map<string, Value>

  /** The inference daemon answering one POST of a payload to a URL. */
  type Daemon = (string, Payload) -> Result<Value, string>

  /** The exceptions `OllamaClient` raises. */
  datatype Error =
    | SessionNotFound(chatId: string)  // ValueError, raised before any request is made
    | ChatApiError(detail: string)     // RuntimeError wrapping a failed chat request
    | GenerateApiError(detail: string) // RuntimeError wrapping a failed generate request
  {
    /** The exception's text, as `str(e)` renders it: a fixed prefix per kind, then the id or the detail. */
    function Message(): (text: string)
      ensures SessionNotFound? ==>
                |text| == 23 + |chatId| && text[..13] == "Chat session " && text[13..13 + |chatId|] == chatId
                && text[13 + |chatId|..] == " not found"
      ensures ChatApiError? ==> |text| >= 23 && text[..23] == "Ollama chat API error: " && text[23..] == detail
      ensures GenerateApiError? ==> |text| >= 18 && text[..18] == "Ollama API error: " && text[18..] == detail
    {
      match this
      case SessionNotFound(id) => "Chat session " + id + " not found"
      case ChatApiError(d) => "Ollama chat API error: " + d
      case GenerateApiError(d) => "Ollama API error: " + d
    }
  }

  /** The text of an error tells which kind it is and carries its whole id or detail. */
  lemma MessageInjective(e1: Error, e2: Error)
    requires e1.Message() == e2.Message()
    ensures e1 == e2
  {
    var t := e1.Message();
    if e1.SessionNotFound? {
      assert t[0] == 'C';
      assert e2.SessionNotFound?;
      assert |e1.chatId| == |e2.chatId|;
      assert e1.chatId == t[13..13 + |e1.chatId|] == e2.chatId;
    } else if e1.ChatApiError? {
      assert t[7] == 'c';
      assert e2.ChatApiError?;
    } else {
      assert t[7] == 'A';
      assert e2.GenerateApiError?;
    }
  }

  function RoleName(r: Role): string
  {
    match r
    case System => "system"
    case User => "user"
    case Assistant => "assistant"
  }

  /** The role a wire name stands for, if any: the inverse of RoleName. */
  function RoleOf(name: string): (r: Option<Role>)
    ensures r.Some? ==> RoleName(r.value) == name
    ensures forall role :: RoleName(role) == name ==> r == Some(role)
  {
    if name == "system" then Some(System)
    else if name == "user" then Some(User)
    else if name == "assistant" then Some(Assistant)
    else None
  }

  /** The `{"role": ..., "content": ...}` dict an entry is stored and sent as. */
  function EncodeMsg(m: Msg): (v: Value)
    ensures v.Obj? && v.fields.Keys == {"role", "content"}
    ensures v.fields["role"] == Str(RoleName(m.role)) && v.fields["content"] == m.content
  {
    Obj(map["role" := Str(RoleName(m.role)), "content" := m.content])
  }

  /** Reads back a transcript entry: an object with exactly a known role name and a content. */
  function DecodeMsg(v: Value): Option<Msg>
  {
    if v.Obj? && v.fields.Keys == {"role", "content"} && v.fields["role"].Str? then
      match RoleOf(v.fields["role"].s)
      case Some(role) => Some(Msg(role, v.fields["content"]))
      case None => None
    else None
  }

  /** The JSON list a transcript is sent as, entry by entry and in order. */
  function EncodeMessages(t: seq<Msg>): (vs: seq<Value>)
    ensures |vs| == |t|
    ensures forall i :: 0 <= i < |t| ==> vs[i] == EncodeMsg(t[i])
  {
    if t == [] then [] else [EncodeMsg(t[0])] + EncodeMessages(t[1..])
  }

  function DecodeMessages(vs: seq<Value>): Option<seq<Msg>>
  {
    if vs == [] then Some([])
    else
      match DecodeMsg(vs[0])
      case None => None
      case Some(m) =>
        match DecodeMessages(vs[1..])
        case None => None
        case Some(rest) => Some([m] + rest)
  }

  lemma DecodeEncodeMsg(m: Msg)
    ensures DecodeMsg(EncodeMsg(m)) == Some(m)
  {
  }

  /** Encoding a transcript loses nothing: the daemon can read back every entry, in order. */
  lemma {:induction false} DecodeEncodeMessages(t: seq<Msg>)
    ensures DecodeMessages(EncodeMessages(t)) == Some(t)
  {
    if t != [] {
      DecodeEncodeMsg(t[0]);
      assert EncodeMessages(t)[1..] == EncodeMessages(t[1..]);
      DecodeEncodeMessages(t[1..]);
      assert [t[0]] + t[1..] == t;
    }
  }

  /** `{**base, **parameters}`: a right-biased merge, so the caller's value wins every shared key. */
  function Spread(base: Payload, parameters: Payload): (p: Payload)
    ensures p.Keys == base.Keys + parameters.Keys
    ensures forall k :: k in parameters ==> p[k] == parameters[k]
    ensures forall k :: k in base && k !in parameters ==> p[k] == base[k]
  {
    base + parameters
  }

  /** The chat endpoint: the base URL followed by the path `/api/chat`. */
  function ChatUrl(baseUrl: string): (url: string)
    ensures |url| == |baseUrl| + 9 && url[..|baseUrl|] == baseUrl && url[|baseUrl|..] == "/api/chat"
  {
    baseUrl + "/api/chat"
  }

  /** The generate endpoint: the base URL followed by the path `/api/generate`. */
  function GenerateUrl(baseUrl: string): (url: string)
    ensures |url| == |baseUrl| + 13 && url[..|baseUrl|] == baseUrl && url[|baseUrl|..] == "/api/generate"
  {
    baseUrl + "/api/generate"
  }

  /** No client's chat request goes to any client's generate endpoint. */
  lemma EndpointsDiffer(chatBase: string, generateBase: string)
    ensures ChatUrl(chatBase) != GenerateUrl(generateBase)
  {
    var c, g := ChatUrl(chatBase), GenerateUrl(generateBase);
    assert c[|c| - 1] == 't';
    assert g[|g| - 1] == 'e';
  }

  /** The /api/chat body: model, whole transcript and `stream: false`, each overridable by `parameters`. */
  function ChatPayload(model: string, transcript: seq<Msg>, parameters: Payload): (p: Payload)
    ensures p.Keys == {"model", "messages", "stream"} + parameters.Keys
    ensures forall k :: k in parameters ==> p[k] == parameters[k]
    ensures "model" !in parameters ==> p["model"] == Str(model)
    ensures "messages" !in parameters ==> p["messages"] == Arr(EncodeMessages(transcript))
    ensures "stream" !in parameters ==> p["stream"] == Bool(false)
  {
    Spread(map["model" := Str(model), "messages" := Arr(EncodeMessages(transcript)), "stream" := Bool(false)],
           parameters)
  }

  /** The /api/generate body: model, prompt and `stream: false`, each overridable by `parameters`. */
  function GeneratePayload(model: string, instruction: string, parameters: Payload): (p: Payload)
    ensures p.Keys == {"model", "prompt", "stream"} + parameters.Keys
    ensures forall k :: k in parameters ==> p[k] == parameters[k]
    ensures "model" !in parameters ==> p["model"] == Str(model)
    ensures "prompt" !in parameters ==> p["prompt"] == Str(instruction)
    ensures "stream" !in parameters ==> p["stream"] == Bool(false)
  {
    Spread(map["model" := Str(model), "prompt" := Str(instruction), "stream" := Bool(false)], parameters)
  }

  /** The transcript a chat payload carries, as the daemon reads it. */
  function SentTranscript(p: Payload): Option<seq<Msg>>
  {
    if "messages" in p && p["messages"].Arr? then DecodeMessages(p["messages"].items) else None
  }

  /** Unless `parameters` shadows "messages", the daemon receives exactly the transcript. */
  lemma ChatPayloadCarriesTranscript(model: string, transcript: seq<Msg>, parameters: Payload)
    requires "messages" !in parameters
    ensures SentTranscript(ChatPayload(model, transcript, parameters)) == Some(transcript)
  {
    DecodeEncodeMessages(transcript);
  }

  /**
    `data.get("message", {}).get("content", "")`: a missing key gives the default, while a
    body or a "message" that is not an object makes `.get` raise.
  */
  function ChatReply(data: Value): (r: Result<Value, string>)
    ensures r.Err? <==> !data.Obj? || ("message" in data.fields && !data.fields["message"].Obj?)
    ensures !data.Obj? ==> r == Err(NoGetError(data))
    ensures data.Obj? && "message" in data.fields && !data.fields["message"].Obj? ==>
              r == Err(NoGetError(data.fields["message"]))
    ensures data.Obj? && "message" !in data.fields ==> r == Ok(Str(""))
    ensures data.Obj? && "message" in data.fields && data.fields["message"].Obj? ==>
              r == Ok(Get(data.fields["message"].fields, "content", Str("")))
  {
    if !data.Obj? then Err(NoGetError(data))
    else
      var message := Get(data.fields, "message", Obj(map[]));
      if !message.Obj? then Err(NoGetError(message))
      else Ok(Get(message.fields, "content", Str("")))
  }

  /** A daemon answer whose "message" is an encoded transcript entry yields that entry's content. */
  lemma ChatReplyOfMessage(fields: map<string, Value>, m: Msg)
    ensures ChatReply(Obj(fields["message" := EncodeMsg(m)])) == Ok(m.content)
  {
  }

  /** `data.get("response", "")`. */
  function GenerateReply(data: Value): (r: Result<Value, string>)
    ensures r.Ok? <==> data.Obj?
    ensures !data.Obj? ==> r == Err(NoGetError(data))
    ensures data.Obj? && "response" in data.fields ==> r == Ok(data.fields["response"])
    ensures data.Obj? && "response" !in data.fields ==> r == Ok(Str(""))
  {
    if data.Obj? then Ok(Get(data.fields, "response", Str(""))) else Err(NoGetError(data))
  }

  /**
    One chat request: post the transcript to /api/chat and extract the reply. Every failure,
    of the call or of the extraction, becomes a ChatApiError carrying its detail.
  */
  function CompleteChat(daemon: Daemon, baseUrl: string, model: string, transcript: seq<Msg>,
                        parameters: Payload): (r: Result<Value, Error>)
    ensures r.Err? ==> r.error.ChatApiError?
    ensures var answer := daemon(ChatUrl(baseUrl), ChatPayload(model, transcript, parameters));
            answer.Err? ==> r == Err(ChatApiError(answer.error))
    ensures var answer := daemon(ChatUrl(baseUrl), ChatPayload(model, transcript, parameters));
            r.Ok? <==> answer.Ok? && ChatReply(answer.value).Ok?
    ensures var answer := daemon(ChatUrl(baseUrl), ChatPayload(model, transcript, parameters));
            answer.Ok? && ChatReply(answer.value).Err? ==> r == Err(ChatApiError(ChatReply(answer.value).error))
    ensures var answer := daemon(ChatUrl(baseUrl), ChatPayload(model, transcript, parameters));
            r.Ok? ==> Ok(r.value) == ChatReply(answer.value)
  {
    match daemon(ChatUrl(baseUrl), ChatPayload(model, transcript, parameters))
    case Err(detail) => Err(ChatApiError(detail))
    case Ok(data) =>
      match ChatReply(data)
      case Ok(reply) => Ok(reply)
      case Err(detail) => Err(ChatApiError(detail))
  }

  /** One generate request: post the prompt to /api/generate and extract the "response" field. */
  function CompleteSingle(daemon: Daemon, baseUrl: string, model: string, instruction: string,
                          parameters: Payload): (r: Result<Value, Error>)
    ensures r.Err? ==> r.error.GenerateApiError?
    ensures var answer := daemon(GenerateUrl(baseUrl), GeneratePayload(model, instruction, parameters));
            answer.Err? ==> r == Err(GenerateApiError(answer.error))
    ensures var answer := daemon(GenerateUrl(baseUrl), GeneratePayload(model, instruction, parameters));
            r.Ok? <==> answer.Ok? && answer.value.Obj?
    ensures var answer := daemon(GenerateUrl(baseUrl), GeneratePayload(model, instruction, parameters));
            answer.Ok? && !answer.value.Obj? ==> r == Err(GenerateApiError(NoGetError(answer.value)))
    ensures var answer := daemon(GenerateUrl(baseUrl), GeneratePayload(model, instruction, parameters));
            r.Ok? ==> Ok(r.value) == GenerateReply(answer.value)
  {
    match daemon(GenerateUrl(baseUrl), GeneratePayload(model, instruction, parameters))
    case Err(detail) => Err(GenerateApiError(detail))
    case Ok(data) =>
      match GenerateReply(data)
      case Ok(reply) => Ok(reply)
      case Err(detail) => Err(GenerateApiError(detail))
  }
}
