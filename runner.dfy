/** Building a ready hub: the business handlers registered and the context set. */
module Runner {
  import opened WebsocketModels
  import opened WaitGroups
  import opened Server
  import opened Handlers
  import StubDb

  /** The dispatch table a new hub ends up with. */
  function DispatchTable(): (t: map<string, Handler>)
    ensures t.Keys == {"msg_send", "msg_history", "whoami", "yodel_create", "yodel_get"}
  {
    map["msg_send" := SendMessage, "msg_history" := MessageHistory, "whoami" := WhoAmIHandler,
        "yodel_create" := YodelCreateHandler, "yodel_get" := YodelGetHandler]
  }

  /**
   * Every tag in the table is the tag of the request envelope its handler decodes,
   * and no two tags share a handler.
   */
  lemma DispatchMatchesEnvelopes()
    ensures DispatchTable()[MsgSend("", "", "").Type()] == SendMessage
    ensures DispatchTable()[MsgHistory("", "", 0, 0, []).Type()] == MessageHistory
    ensures DispatchTable()[WhoAmI("", "", "", "").Type()] == WhoAmIHandler
    ensures DispatchTable()[YodelCreate("", "").Type()] == YodelCreateHandler
    ensures DispatchTable()[YodelGet("", "").Type()] == YodelGetHandler
    ensures forall a, b :: a in DispatchTable() && b in DispatchTable() && a != b ==> DispatchTable()[a] != DispatchTable()[b]
  {
  }

  /**
   * NewHub (state only): an empty registry, the given tracker and store, the five
   * handlers of the message, identification and yodel packages, and the context set.
   * The run task it starts is `ServerHub.RunStart` and what follows.
   */
  method NewHub(wg: WaitGroupCounter, database: StubDb.StubDatabase) returns (hub: ServerHub)
    ensures fresh(hub)
    ensures hub.Valid() && hub.Clients == map[] && hub.BroadcastQueue == []
    ensures hub.Wg == wg && hub.Database == database
    ensures hub.Handlers == DispatchTable()
    ensures hub.Callbacks == map[] && hub.Fired == []
    ensures hub.ContextSet && !hub.ShutdownRequested
  {
    hub := new ServerHub(wg, database);
    NewMessageHandler(hub);
    NewIdentificationHandler(hub);
    NewYodelHandler(hub);
    hub.ContextSet := true;
  }
}
