/** The websocket endpoint of the chat backend and the module-level state it
    works on: the provider name `MODEL_PROVIDER`, which is ONE value for the
    whole process (every connection reads and rewrites the same field), the
    configured OpenAI key, and the shared connection registry. */
module Server {
  import opened Text
  import opened Handlers
  import opened Protocol
  import opened Registry

  /** `os.getenv("MODEL_PROVIDER", "openai").lower()` */
  function InitialProvider(configured: Option<string>): (p: string)
    ensures configured.None? ==> p == "openai"
    ensures configured.Some? ==> |p| == |configured.value|
    ensures configured.Some? ==> forall i :: 0 <= i < |p| ==> p[i] == LowerChar(configured.value[i])
    ensures forall i :: 0 <= i < |p| ==> !('A' <= p[i] <= 'Z')
  {
    Lower(if configured.Some? then configured.value else "openai")
  }

  /** The configured name is matched without regard to ASCII case: a
      configured `OpenAI` starts the server on `openai`. */
  lemma ConfiguredNameCaseless()
    ensures InitialProvider(Some("OpenAI")) == "openai"
  {
    var p := InitialProvider(Some("OpenAI"));
    assert |p| == 6;
    assert p[0] == LowerChar('O') == 'o';
    assert p[4] == LowerChar('A') == 'a';
    assert p[5] == LowerChar('I') == 'i';
  }

  class ChatServer {
    /** `MODEL_PROVIDER`: shared by all connections. */
    var modelProvider: string
    /** `OPENAI_API_KEY` */
    const openaiApiKey: Option<string>
    /** `manager` */
    const manager: ConnectionManager

    ghost predicate Valid()
      reads this, manager
    {
      manager.Valid()
    }

    constructor (configuredProvider: Option<string>, apiKey: Option<string>)
      ensures Valid() && fresh(manager)
      ensures modelProvider == InitialProvider(configuredProvider)
      ensures openaiApiKey == apiKey
      ensures manager.Contents() == Table([], map[]) && manager.sent == []
    {
      modelProvider := InitialProvider(configuredProvider);
      openaiApiKey := apiKey;
      manager := new ConnectionManager();
    }

    /** One pass through the body of the receive loop for the text `m`:
        returns the frames sent on the connection's socket and the handler
        calls made, and updates the shared provider. */
    method HandleText(m: Inbound) returns (replies: seq<string>, calls: seq<Call>)
      modifies this`modelProvider
      ensures Turn(modelProvider, replies, calls) == Step(openaiApiKey, old(modelProvider), m)
    {
      if StartsWith(m.text, UsePrefix) {
        var newProvider := ParseCommand(m.text);
        if newProvider == "openai" || newProvider == "ollama" {
          modelProvider := newProvider;
          replies := [SwitchedNotice(modelProvider)];
        } else {
          replies := [InvalidProviderNotice];
        }
        calls := [];
        return;
      }
      var response: PyValue;
      replies := [];
      if modelProvider == "openai" {
        calls := [OpenAICall(m.text, KeyConfigured(openaiApiKey))];
        var answer := OpenAIHandler(openaiApiKey, m.openai);
        if answer.Success? {
          response := answer.value;
        } else {
          modelProvider := "ollama";
          replies := [FailoverNotice(Message(answer.error))];
          calls := calls + [OllamaCall(m.text)];
          response := OllamaHandler(m.ollama);
        }
      } else {
        calls := [OllamaCall(m.text)];
        response := OllamaHandler(m.ollama);
      }
      replies := replies + [AssistantReply(response)];
    }

    /** The `while True` receive loop over the texts `inbound`: returns the
        frames sent and the handler calls made, and leaves the shared
        provider where the session leaves it. */
    method ReceiveLoop(inbound: seq<Inbound>) returns (replies: seq<string>, calls: seq<Call>)
      modifies this`modelProvider
      ensures var s := Session(openaiApiKey, old(modelProvider), inbound);
        modelProvider == s.provider && replies == s.replies && calls == s.calls
    {
      replies, calls := [], [];
      var i := 0;
      while i < |inbound|
        invariant 0 <= i <= |inbound|
        invariant var s := Session(openaiApiKey, old(modelProvider), inbound[..i]);
          modelProvider == s.provider && replies == s.replies && calls == s.calls
      {
        ghost var before := Session(openaiApiKey, old(modelProvider), inbound[..i]);
        assert inbound[..i + 1][..i] == inbound[..i];
        assert Session(openaiApiKey, old(modelProvider), inbound[..i + 1])
          == Then(before, Step(openaiApiKey, before.provider, inbound[i]));
        var r, c := HandleText(inbound[i]);
        replies, calls := replies + r, calls + c;
        i := i + 1;
      }
      assert inbound[..i] == inbound;
    }

    /** `websocket_endpoint(websocket, client_id)` for a connection that
        receives the texts `inbound` and then closes: registers the socket,
        greets with the current provider, handles each text in order, and
        deregisters the client id when the receive raises the disconnect. */
    method WebsocketEndpoint(websocket: WebSocket, clientId: ClientId, inbound: seq<Inbound>)
      returns (frames: seq<string>, calls: seq<Call>)
      requires Valid()
      modifies this`modelProvider, manager
      ensures Valid()
      ensures manager.Contents() == Disconnected(Connected(old(manager.Contents()), clientId, websocket), clientId)
      ensures manager.sent == old(manager.sent)
      ensures var s := Session(openaiApiKey, old(modelProvider), inbound);
        && modelProvider == s.provider
        && frames == [Greeting(old(modelProvider))] + s.replies
        && calls == s.calls
    {
      manager.Connect(websocket, clientId);
      var greeting := Greeting(modelProvider);
      var replies;
      replies, calls := ReceiveLoop(inbound);
      frames := [greeting] + replies;
      manager.Disconnect(clientId);
    }
  }
}
