/**
  `OllamaClient` (python_subsystem/ollama_client.py): an object holding the daemon's base URL
  and the session table, which `init_chat`, `chat_message` and `cleanup_chat` update in place.
*/
module Client {
  import opened Wrappers
  import opened Json
  import opened Gateway
  import opened Sessions

  /** The `base_url` a client gets when none is given. */
  const DefaultBaseUrl: string := "http://localhost:11434"

  /** Replacing an entry twice leaves only the second value. */
  lemma UpdateTwice(table: Table, chatId: string, first: Session, second: Session)
    ensures table[chatId := first][chatId := second] == table[chatId := second]
  {
  }

  class OllamaClient {
    const baseUrl: string
    var chatSessions: Table

    /** Every transcript in the table is one the client can produce. */
    ghost predicate Valid()
      reads this
    {
      TableWellFormed(chatSessions)
    }

    constructor (baseUrl: string)
      ensures Valid()
      ensures this.baseUrl == baseUrl && chatSessions == map[]
    {
      this.baseUrl := baseUrl;
      chatSessions := map[];
    }

    /** Creates the entry for `chatId`, or replaces whatever entry it had. */
    method InitChat(chatId: string, model: string, systemPrompt: Option<string>)
      requires Valid()
      modifies this
      ensures Valid()
      ensures chatSessions == old(chatSessions)[chatId := Session(model, InitialTranscript(systemPrompt))]
    {
      var messages: seq<Msg> := [];
      if systemPrompt.Some? && systemPrompt.value != "" {
        messages := messages + [Msg(System, Str(systemPrompt.value))];
      }
      assert messages == InitialTranscript(systemPrompt);
      chatSessions := chatSessions[chatId := Session(model, messages)];
    }

    /**
      One conversational turn. The user entry is stored before the daemon is asked, so it
      stays when the request fails; the assistant entry is stored only on success.
    */
    method ChatMessage(chatId: string, message: string, parameters: Payload, daemon: Daemon)
      returns (r: Result<Value, Error>)
      requires Valid()
      modifies this
      ensures Valid()
      ensures var t := Turn(old(chatSessions), chatId, message, parameters, daemon, baseUrl);
              chatSessions == t.table && r == t.reply
    {
      if chatId !in chatSessions {
        return Err(SessionNotFound(chatId));
      }
      ghost var before := chatSessions;
      var session := chatSessions[chatId];
      session := session.(messages := session.messages + [UserMsg(message)]);
      chatSessions := chatSessions[chatId := session];

      var payload := ChatPayload(session.model, session.messages, parameters);
      var answer := daemon(ChatUrl(baseUrl), payload);
      if answer.Err? {
        r := Err(ChatApiError(answer.error));
      } else {
        var reply := ChatReply(answer.value);
        if reply.Err? {
          r := Err(ChatApiError(reply.error));
        } else {
          r := Ok(reply.value);
          ghost var sent := session;
          session := session.(messages := session.messages + [Msg(Assistant, reply.value)]);
          chatSessions := chatSessions[chatId := session];
          UpdateTwice(before, chatId, sent, session);
        }
      }
      assert r == CompleteChat(daemon, baseUrl, session.model, before[chatId].messages + [UserMsg(message)], parameters);
      assert chatSessions == before[chatId := session];
      TurnKeepsWellFormed(before, chatId, message, parameters, daemon, baseUrl);
    }

    /** A stateless generate request: the session table is neither read nor changed. */
    method SingleQuery(model: string, instruction: string, parameters: Payload, daemon: Daemon)
      returns (r: Result<Value, Error>)
      ensures r == CompleteSingle(daemon, baseUrl, model, instruction, parameters)
    {
      var payload := GeneratePayload(model, instruction, parameters);
      var answer := daemon(GenerateUrl(baseUrl), payload);
      if answer.Err? {
        return Err(GenerateApiError(answer.error));
      }
      var reply := GenerateReply(answer.value);
      if reply.Err? {
        return Err(GenerateApiError(reply.error));
      }
      return Ok(reply.value);
    }

    /** Removes the entry for `chatId` if there is one; an unknown id is not an error. */
    method CleanupChat(chatId: string)
      requires Valid()
      modifies this
      ensures Valid()
      ensures chatSessions == old(chatSessions) - {chatId}
    {
      if chatId in chatSessions {
        chatSessions := chatSessions - {chatId};
      }
    }
  }
}
