/**
  The session table of `OllamaClient` as values: what `init_chat` stores, what one
  `chat_message` turn does to the table, the transcript invariant every operation keeps,
  and what a run of turns leaves behind.
*/
module Sessions {
  import opened Wrappers
  import opened Json
  import opened Gateway

  /** One `chat_sessions` entry: the model bound at creation and the transcript so far. */
  datatype Session = Session(model: string, messages: seq<Msg>)

  /** `chat_sessions`, keyed by chat id. */
  type Table = map<string, Session>

  /** Python truthiness of an optional prompt: None and "" are both false. */
  predicate Truthy(p: Option<string>)
    ensures Truthy(p) <==> p != None && p != Some("")
  {
    p.Some? && p.value != ""
  }

  function UserMsg(message: string): Msg
  {
    Msg(User, Str(message))
  }

  /**
    A transcript the client can produce: a system entry can only be the first, and every
    assistant entry answers the user entry right before it.
  */
  predicate WellFormed(t: seq<Msg>)
  {
    && (forall i :: 0 < i < |t| ==> t[i].role != System)
    && (forall i :: 0 <= i < |t| && t[i].role == Assistant ==> 0 < i && t[i - 1].role == User)
  }

  predicate TableWellFormed(table: Table)
  {
    forall id :: id in table ==> WellFormed(table[id].messages)
  }

  /** The transcript `init_chat` starts with: one system entry exactly when the prompt is truthy. */
  function InitialTranscript(systemPrompt: Option<string>): (t: seq<Msg>)
    ensures Truthy(systemPrompt) ==> t == [Msg(System, Str(systemPrompt.value))]
    ensures !Truthy(systemPrompt) ==> t == []
    ensures WellFormed(t)
  {
    if Truthy(systemPrompt) then [Msg(System, Str(systemPrompt.value))] else []
  }

  /** The table after a turn and what the turn returned or raised. */
  datatype Turned = Turned(table: Table, reply: Result<Value, Error>)

  /**
    One `chat_message` turn: an unknown id raises and changes nothing; otherwise the user
    entry is appended, the whole transcript is sent, and only a successful reply is
    appended as an assistant entry. No other entry of the table changes.
  */
  function Turn(table: Table, chatId: string, message: string, parameters: Payload,
                daemon: Daemon, baseUrl: string): (t: Turned)
    ensures chatId !in table ==> t == Turned(table, Err(SessionNotFound(chatId)))
    ensures t.table.Keys == table.Keys
    ensures forall id :: id in table && id != chatId ==> t.table[id] == table[id]
    ensures chatId in table ==>
              && t.table[chatId].model == table[chatId].model
              && t.reply == CompleteChat(daemon, baseUrl, table[chatId].model,
                                         table[chatId].messages + [UserMsg(message)], parameters)
    ensures chatId in table && t.reply.Ok? ==>
              t.table[chatId].messages == table[chatId].messages + [UserMsg(message), Msg(Assistant, t.reply.value)]
    ensures chatId in table && t.reply.Err? ==>
              && t.reply.error.ChatApiError?
              && t.table[chatId].messages == table[chatId].messages + [UserMsg(message)]
  {
    if chatId !in table then Turned(table, Err(SessionNotFound(chatId)))
    else
      var session := table[chatId];
      var sent := session.messages + [UserMsg(message)];
      var reply := CompleteChat(daemon, baseUrl, session.model, sent, parameters);
      var messages := if reply.Ok? then sent + [Msg(Assistant, reply.value)] else sent;
      Turned(table[chatId := Session(session.model, messages)], reply)
  }

  /** Appending a user entry, and then possibly its answer, keeps a transcript well formed. */
  lemma AppendTurnKeepsWellFormed(t: seq<Msg>, message: string, answer: Option<Value>)
    requires WellFormed(t)
    ensures WellFormed(t + [UserMsg(message)])
    ensures answer.Some? ==> WellFormed(t + [UserMsg(message), Msg(Assistant, answer.value)])
  {
  }

  /** Every turn, successful or not, keeps every transcript of the table well formed. */
  lemma TurnKeepsWellFormed(table: Table, chatId: string, message: string, parameters: Payload,
                            daemon: Daemon, baseUrl: string)
    requires TableWellFormed(table)
    ensures TableWellFormed(Turn(table, chatId, message, parameters, daemon, baseUrl).table)
  {
    if chatId in table {
      var t := Turn(table, chatId, message, parameters, daemon, baseUrl);
      AppendTurnKeepsWellFormed(table[chatId].messages, message,
                                if t.reply.Ok? then Some(t.reply.value) else None);
    }
  }

  /** A failed turn leaves its user entry unanswered, so the next turn sends both user entries,
      whatever parameters the failed turn had and whatever the retry has, as long as the retry's do not
      name `messages`. */
  lemma RetryResendsUnanswered(table: Table, chatId: string, first: string, second: string,
                               failedParameters: Payload, retryParameters: Payload, daemon: Daemon, baseUrl: string)
    requires chatId in table
    requires "messages" !in retryParameters
    requires Turn(table, chatId, first, failedParameters, daemon, baseUrl).reply.Err?
    ensures var after := Turn(table, chatId, first, failedParameters, daemon, baseUrl).table;
            SentTranscript(ChatPayload(after[chatId].model, after[chatId].messages + [UserMsg(second)], retryParameters))
            == Some(table[chatId].messages + [UserMsg(first), UserMsg(second)])
  {
    var after := Turn(table, chatId, first, failedParameters, daemon, baseUrl).table;
    assert after[chatId].messages + [UserMsg(second)] == table[chatId].messages + [UserMsg(first), UserMsg(second)];
    ChatPayloadCarriesTranscript(after[chatId].model, after[chatId].messages + [UserMsg(second)], retryParameters);
  }

  /** The arguments of one `chat_message` call and the daemon that serves it. */
  datatype Request = Request(message: string, parameters: Payload, daemon: Daemon)

  /** The table after a run of turns on one id, and what each turn returned or raised, in order. */
  datatype Ran = Ran(table: Table, replies: seq<Result<Value, Error>>)

  /** `chat_message(chatId, q.message, q.parameters)` for each request `q`, in order. */
  function RunTurns(table: Table, chatId: string, requests: seq<Request>, baseUrl: string): (r: Ran)
    ensures |r.replies| == |requests|
    decreases |requests|
  {
    if requests == [] then Ran(table, [])
    else
      var last := |requests| - 1;
      var before := RunTurns(table, chatId, requests[..last], baseUrl);
      var q := requests[last];
      var t := Turn(before.table, chatId, q.message, q.parameters, q.daemon, baseUrl);
      Ran(t.table, before.replies + [t.reply])
  }

  /** Every turn of a run returned normally. */
  predicate AllSucceeded(replies: seq<Result<Value, Error>>)
  {
    forall k :: 0 <= k < |replies| ==> replies[k].Ok?
  }

  /** However each turn goes, every transcript in the table stays well formed. */
  lemma {:induction false} RunTurnsKeepsWellFormed(table: Table, chatId: string, requests: seq<Request>,
                                                   baseUrl: string)
    requires TableWellFormed(table)
    ensures TableWellFormed(RunTurns(table, chatId, requests, baseUrl).table)
    decreases |requests|
  {
    if requests != [] {
      var last := |requests| - 1;
      RunTurnsKeepsWellFormed(table, chatId, requests[..last], baseUrl);
      var q := requests[last];
      TurnKeepsWellFormed(RunTurns(table, chatId, requests[..last], baseUrl).table,
                          chatId, q.message, q.parameters, q.daemon, baseUrl);
    }
  }

  /** The last turn of a run, when it succeeds, appends its user entry and the reply it returned. */
  lemma AnsweredTurn(table: Table, chatId: string, requests: seq<Request>, baseUrl: string)
    requires requests != []
    requires chatId in RunTurns(table, chatId, requests[..|requests| - 1], baseUrl).table
    requires RunTurns(table, chatId, requests, baseUrl).replies[|requests| - 1].Ok?
    ensures var before := RunTurns(table, chatId, requests[..|requests| - 1], baseUrl);
            var after := RunTurns(table, chatId, requests, baseUrl);
            var reply := after.replies[|requests| - 1];
            && chatId in after.table
            && after.replies == before.replies + [reply]
            && after.table[chatId].messages
               == before.table[chatId].messages + [UserMsg(requests[|requests| - 1].message), Msg(Assistant, reply.value)]
  {
  }

  /**
    `t` is `prefix` followed by one answered pair per request, in order: the user entry of
    request k at offset 2k after the prefix, and right after it the reply turn k returned.
  */
  predicate AnsweredAfter(t: seq<Msg>, prefix: seq<Msg>, requests: seq<Request>, replies: seq<Result<Value, Error>>)
  {
    && |replies| == |requests|
    && |t| == |prefix| + 2 * |requests|
    && t[..|prefix|] == prefix
    && (forall k :: 0 <= k < |requests| ==>
          && replies[k].Ok?
          && t[|prefix| + 2 * k] == UserMsg(requests[k].message)
          && t[|prefix| + 2 * k + 1] == Msg(Assistant, replies[k].value))
  }

  lemma AnsweredAfterExtend(t: seq<Msg>, now: seq<Msg>, prefix: seq<Msg>, requests: seq<Request>,
                            earlier: seq<Result<Value, Error>>, reply: Result<Value, Error>)
    requires requests != [] && reply.Ok?
    requires AnsweredAfter(t, prefix, requests[..|requests| - 1], earlier)
    requires now == t + [UserMsg(requests[|requests| - 1].message), Msg(Assistant, reply.value)]
    ensures AnsweredAfter(now, prefix, requests, earlier + [reply])
  {
    var init := requests[..|requests| - 1];
    var replies := earlier + [reply];
    var n := |prefix|;
    assert now[..n] == t[..n];
    forall k | 0 <= k < |requests|
      ensures && replies[k].Ok?
              && now[n + 2 * k] == UserMsg(requests[k].message)
              && now[n + 2 * k + 1] == Msg(Assistant, replies[k].value)
    {
      if k < |init| {
        assert init[k] == requests[k];
        assert replies[k] == earlier[k];
        assert now[n + 2 * k] == t[n + 2 * k];
        assert now[n + 2 * k + 1] == t[n + 2 * k + 1];
      } else {
        assert n + 2 * k == |t|;
      }
    }
  }

  /** Turns on one id, whatever they return, never add or remove ids or touch other sessions. */
  lemma {:induction false} RunTurnsIsolation(table: Table, chatId: string, requests: seq<Request>, baseUrl: string)
    ensures var after := RunTurns(table, chatId, requests, baseUrl).table;
            && after.Keys == table.Keys
            && (forall id :: id in table && id != chatId ==> after[id] == table[id])
            && (chatId in table ==> after[chatId].model == table[chatId].model)
    decreases |requests|
  {
    if requests != [] {
      RunTurnsIsolation(table, chatId, requests[..|requests| - 1], baseUrl);
    }
  }

  /**
    When each of N turns returns normally, the old transcript is followed by 2N entries:
    for each turn, in call order, its user entry and then the reply that turn returned.
  */
  lemma {:induction false} SuccessfulTurns(table: Table, chatId: string, requests: seq<Request>, baseUrl: string)
    requires chatId in table
    requires AllSucceeded(RunTurns(table, chatId, requests, baseUrl).replies)
    ensures var after := RunTurns(table, chatId, requests, baseUrl);
            chatId in after.table && AnsweredAfter(after.table[chatId].messages, table[chatId].messages, requests, after.replies)
    decreases |requests|
  {
    if requests == [] {
      assert table[chatId].messages[..|table[chatId].messages|] == table[chatId].messages;
    } else {
      var last := |requests| - 1;
      var init := requests[..last];
      var before := RunTurns(table, chatId, init, baseUrl);
      var after := RunTurns(table, chatId, requests, baseUrl);
      assert after.replies == before.replies + [after.replies[last]];
      forall k | 0 <= k < |before.replies| ensures before.replies[k].Ok? {
        assert before.replies[k] == after.replies[k];
      }
      SuccessfulTurns(table, chatId, init, baseUrl);
      AnsweredTurn(table, chatId, requests, baseUrl);
      AnsweredAfterExtend(before.table[chatId].messages, after.table[chatId].messages,
                          table[chatId].messages, requests, before.replies, after.replies[last]);
    }
  }

  /** After `init_chat`, N turns that each return normally leave a transcript of (prompt ? 1 : 0) + 2N entries. */
  lemma TranscriptLengthAfterInit(table: Table, chatId: string, model: string, systemPrompt: Option<string>,
                                  requests: seq<Request>, baseUrl: string)
    requires AllSucceeded(RunTurns(table[chatId := Session(model, InitialTranscript(systemPrompt))],
                                   chatId, requests, baseUrl).replies)
    ensures var after := RunTurns(table[chatId := Session(model, InitialTranscript(systemPrompt))],
                                  chatId, requests, baseUrl).table;
            && chatId in after
            && |after[chatId].messages| == (if Truthy(systemPrompt) then 1 else 0) + 2 * |requests|
            && (Truthy(systemPrompt) ==> after[chatId].messages[0] == Msg(System, Str(systemPrompt.value)))
  {
    var start := table[chatId := Session(model, InitialTranscript(systemPrompt))];
    SuccessfulTurns(start, chatId, requests, baseUrl);
    var after := RunTurns(start, chatId, requests, baseUrl).table;
    if Truthy(systemPrompt) {
      assert after[chatId].messages[..1] == InitialTranscript(systemPrompt);
      assert after[chatId].messages[..1][0] == after[chatId].messages[0];
    }
  }
}
