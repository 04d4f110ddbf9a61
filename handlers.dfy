/**
 * The business handlers: each decodes one request frame, checks it, talks to the store
 * and answers with one payload, either to the requesting client or to everybody.
 *
 * Decoding is the parameter `req`: `None` when the frame does not decode into the
 * handler's request type. Each handler is a pure decision (what to answer) plus a
 * method that performs it against the hub's queues and, for messages, the store.
 */
module Handlers {
  import opened Wrappers
  import opened Ids
  import opened DbModels
  import opened WebsocketModels
  import opened Server
  import StubDb
  import InMemoryDb

  /** Where a handler's answer goes. */
  datatype Effect = Reply(payload: JSONModel) | Broadcast(payload: JSONModel)

  /** The number of messages a history request asks the store for. */
  const HistoryLimit := 50

  /** Delivers an answer: a reply to the client's outgoing queue, a broadcast to the hub's. */
  method Emit(hub: ServerHub, c: Client, e: Effect)
    modifies hub`BroadcastQueue, c`Outgoing
    ensures e.Reply? ==> c.Outgoing == old(c.Outgoing) + [e.payload] && hub.BroadcastQueue == old(hub.BroadcastQueue)
    ensures e.Broadcast? ==> hub.BroadcastQueue == old(hub.BroadcastQueue) + [e.payload] && c.Outgoing == old(c.Outgoing)
  {
    if e.Reply? {
      c.Outgoing := c.Outgoing + [e.payload];
    } else {
      hub.BroadcastQueue := hub.BroadcastQueue + [e.payload];
    }
  }

  // ---------------------------------------------------------------- messages

  /** The record the send handler asks the store to insert: no id yet, author by id and name. */
  function PendingMessage(sender: User, content: string, now: int): (m: Message)
    ensures m.messageId == NilObjectId && m.content == content && m.timestamp == now
    ensures m.author.userId == sender.userId && m.author.username == sender.username
    ensures m.author.password == [] && m.author.salt == []
  {
    Message(NilObjectId, content, now, User(sender.userId, sender.username, [], []))
  }

  /**
   * HandleSendMessage's answer, given the id the store assigned (`None` when the insert
   * failed). A well-formed, non-empty message that was stored is broadcast with its
   * text, time, author and the stored id; everything else is an error to the sender.
   */
  function SendMessageEffect(req: Option<JSONModel>, sender: User, now: int, storedId: Option<ObjectId>): (e: Effect)
    requires req.Some? ==> req.value.MsgSend?
    ensures e.Broadcast? <==> req.Some? && req.value.message != "" && storedId.Some?
    ensures req.None? ==> e == Reply(ErrorPayload("JSONDecodeError", ""))
    ensures req.Some? && req.value.message == "" ==>
      e == Reply(ErrorPayload("MessageEmpty", "Cannot send an empty message!"))
    ensures req.Some? && req.value.message != "" && storedId.None? ==> e == Reply(ErrorPayload("DatabaseError", ""))
    ensures e.Broadcast? ==>
      && e.payload.MsgBroadcast? && e.payload.Type() == "msg_broadcast"
      && e.payload.message == req.value.message && e.payload.time == now
      && e.payload.author == Author(Hex(sender.userId), sender.username)
      && FromHex(e.payload.messageId) == storedId
      && e.payload.nonce == ""
  {
    if req.None? then Reply(ErrorPayload("JSONDecodeError", ""))
    else if req.value.message == "" then Reply(ErrorPayload("MessageEmpty", "Cannot send an empty message!"))
    else if storedId.None? then Reply(ErrorPayload("DatabaseError", ""))
    else
      HexRoundTrip(storedId.value);
      Broadcast(MsgBroadcast("", "", Hex(storedId.value), Author(Hex(sender.userId), sender.username),
                             req.value.message, now))
  }

  /**
   * The record a successful send stores and the broadcast it announces describe the same
   * message: same text, same time, the stored id, and the author the store keeps by id
   * and name appears in the broadcast by hex id and name.
   */
  lemma StoredMessageMatchesBroadcast(req: Option<JSONModel>, sender: User, now: int, id: ObjectId)
    requires req.Some? && req.value.MsgSend? && req.value.message != ""
    ensures var e := SendMessageEffect(req, sender, now, Some(id));
      var stored := PendingMessage(sender, req.value.message, now).(messageId := id);
      && e.Broadcast?
      && stored.content == e.payload.message && stored.timestamp == e.payload.time
      && FromHex(e.payload.messageId) == Some(stored.messageId)
      && FromHex(e.payload.author.id) == Some(stored.author.userId)
      && stored.author.username == e.payload.author.username
  {
    HexRoundTrip(sender.userId);
  }

  /**
   * HandleSendMessage against the stub store, which assigns `id`. The store gains the
   * message exactly when it is well formed and non-empty, and a broadcast carries the
   * key under which the store now holds it.
   */
  method HandleSendMessage(hub: ServerHub, c: Client, req: Option<JSONModel>, now: int, id: ObjectId)
    requires req.Some? ==> req.value.MsgSend?
    requires hub.Database.Valid()
    modifies hub.Database`Messages, hub`BroadcastQueue, c`Outgoing
    ensures hub.Database.Valid()
    ensures var e := SendMessageEffect(req, c.user, now, Some(id));
      && (e.Reply? ==> c.Outgoing == old(c.Outgoing) + [e.payload] && hub.BroadcastQueue == old(hub.BroadcastQueue))
      && (e.Broadcast? ==> hub.BroadcastQueue == old(hub.BroadcastQueue) + [e.payload] && c.Outgoing == old(c.Outgoing))
    ensures req.Some? && req.value.message != "" ==>
      hub.Database.Messages == old(hub.Database.Messages)[Hex(id) := PendingMessage(c.user, req.value.message, now).(messageId := id)]
    ensures !(req.Some? && req.value.message != "") ==> hub.Database.Messages == old(hub.Database.Messages)
    ensures var e := SendMessageEffect(req, c.user, now, Some(id));
      e.Broadcast? ==>
        && e.payload.messageId in hub.Database.Messages
        && hub.Database.Messages[e.payload.messageId].content == e.payload.message
        && hub.Database.Messages[e.payload.messageId].timestamp == e.payload.time
  {
    if req.Some? && req.value.message != "" {
      var _, _ := hub.Database.InsertMessage(PendingMessage(c.user, req.value.message, now), id);
    }
    Emit(hub, c, SendMessageEffect(req, c.user, now, Some(id)));
  }

  /**
   * HandleMessageHistory's answer: the request itself, its message list filled in with
   * what the store returned; an error when the request does not decode or the store fails.
   */
  function MessageHistoryEffect(req: Option<JSONModel>, found: Option<seq<Message>>): (e: Effect)
    requires req.Some? ==> req.value.MsgHistory?
    ensures e.Reply?
    ensures req.None? ==> e.payload == ErrorPayload("JSONDecodeError", "")
    ensures req.Some? && found.None? ==> e.payload == ErrorPayload("DatabaseError", "")
    ensures req.Some? && found.Some? ==>
      && e.payload.MsgHistory? && e.payload.messages == found.value
      && e.payload.nonce == req.value.nonce && e.payload.t == req.value.t
      && e.payload.fromTime == req.value.fromTime && e.payload.toTime == req.value.toTime
  {
    if req.None? then Reply(ErrorPayload("JSONDecodeError", ""))
    else if found.None? then Reply(ErrorPayload("DatabaseError", ""))
    else Reply(req.value.(messages := found.value))
  }

  /**
   * HandleMessageHistory against the stub store: the client receives the request back
   * with the range query's answer, the earliest fifty matching messages (or all of them
   * when fewer match), each once, earliest first.
   */
  method HandleMessageHistory(hub: ServerHub, c: Client, req: Option<JSONModel>)
    requires req.Some? ==> req.value.MsgHistory?
    requires hub.Database.Valid()
    modifies c`Outgoing
    ensures req.None? ==> c.Outgoing == old(c.Outgoing) + [ErrorPayload("JSONDecodeError", "")]
    ensures req.Some? ==>
      && |c.Outgoing| == |old(c.Outgoing)| + 1 && c.Outgoing[..|old(c.Outgoing)|] == old(c.Outgoing)
      && var p := c.Outgoing[|old(c.Outgoing)|];
      var matching := hub.Database.Matching(req.value.fromTime, req.value.toTime);
      && p.MsgHistory? && p.nonce == req.value.nonce
      && p.fromTime == req.value.fromTime && p.toTime == req.value.toTime
      && p.t == req.value.t
      && StubDb.SortedByTimestamp(p.messages) && StubDb.Distinct(p.messages)
      && |p.messages| == InMemoryDb.Min(|matching|, HistoryLimit)
      && (forall i :: 0 <= i < |p.messages| ==> p.messages[i] in matching)
      && (forall m, i :: m in matching && m !in p.messages && 0 <= i < |p.messages| ==>
            p.messages[i].timestamp <= m.timestamp)
  {
    if req.None? {
      c.Outgoing := c.Outgoing + [MessageHistoryEffect(req, None).payload];
      return;
    }
    var msgs, err := hub.Database.GetMessagesBetween(req.value.fromTime, req.value.toTime, HistoryLimit);
    c.Outgoing := c.Outgoing + [MessageHistoryEffect(req, if err.None? then Some(msgs) else None).payload];
  }

  // ---------------------------------------------------------------- identification

  /**
   * HandleWhoAmI's answer: the sender's own id and name, echoing the request's nonce.
   * A request that does not decode is answered all the same, with an empty nonce.
   */
  function WhoAmIReply(req: Option<JSONModel>, sender: User): (r: JSONModel)
    requires req.Some? ==> req.value.WhoAmI?
    ensures r.WhoAmI? && r.Type() == "whoami" && r.t == ""
    ensures r.nonce == (if req.Some? then req.value.nonce else "")
    ensures FromHex(r.id) == Some(sender.userId) && r.username == sender.username
  {
    HexRoundTrip(sender.userId);
    WhoAmI("", Hex(sender.userId), sender.username, if req.Some? then req.value.GetNonce() else "")
  }

  method HandleWhoAmI(hub: ServerHub, c: Client, req: Option<JSONModel>)
    requires req.Some? ==> req.value.WhoAmI?
    modifies c`Outgoing
    ensures c.Outgoing == old(c.Outgoing) + [WhoAmIReply(req, c.user)]
  {
    c.Outgoing := c.Outgoing + [WhoAmIReply(req, c.user)];
  }

  // ---------------------------------------------------------------- yodels

  /** The record the create handler asks the store to insert, owned by the sender. */
  function PendingYodel(sender: User, name: string): (y: Yodel)
    ensures y.yodelId == NilObjectId && y.name == name
    ensures FromHex(y.owner) == Some(sender.userId)
  {
    HexRoundTrip(sender.userId);
    DbModels.Yodel.Yodel(NilObjectId, name, Hex(sender.userId))
  }

  /**
   * HandleYodelCreate's answer, given the id the store assigned (`None` when the insert
   * failed): the new yodel's id, name and owner, or an error.
   */
  function YodelCreateEffect(req: Option<JSONModel>, sender: User, storedId: Option<ObjectId>): (e: Effect)
    requires req.Some? ==> req.value.YodelCreate?
    ensures e.Reply?
    ensures e.payload.Yodel? <==> req.Some? && req.value.name != "" && storedId.Some?
    ensures req.None? ==> e.payload == ErrorPayload("JSONDecodeError", "")
    ensures req.Some? && req.value.name == "" ==>
      e.payload == ErrorPayload("YodelNameEmpty", "Cannot create a yodel with no name!")
    ensures req.Some? && req.value.name != "" && storedId.None? ==> e.payload == ErrorPayload("DatabaseError", "")
    ensures e.payload.Yodel? ==>
      && FromHex(e.payload.yodelId) == storedId && e.payload.name == req.value.name
      && FromHex(e.payload.owner) == Some(sender.userId) && e.payload.t == ""
  {
    if req.None? then Reply(ErrorPayload("JSONDecodeError", ""))
    else if req.value.name == "" then Reply(ErrorPayload("YodelNameEmpty", "Cannot create a yodel with no name!"))
    else if storedId.None? then Reply(ErrorPayload("DatabaseError", ""))
    else
      HexRoundTrip(storedId.value);
      HexRoundTrip(sender.userId);
      Reply(JSONModel.Yodel("", Hex(storedId.value), req.value.name, Hex(sender.userId)))
  }

  /**
   * HandleYodelGet's answer against the yodel collection: the id must be present, parse
   * as 24 hex digits and name a stored yodel; the answer carries its id and name but
   * not its owner.
   */
  function YodelGetEffect(req: Option<JSONModel>, yodels: map<ObjectId, Yodel>): (e: Effect)
    requires req.Some? ==> req.value.YodelGet?
    ensures e.Reply?
    ensures req.None? ==> e.payload == ErrorPayload("JSONDecodeError", "")
    ensures req.Some? && req.value.yodelId == "" ==>
      e.payload == ErrorPayload("MissingIDError", "ID field cannot be empty!")
    ensures req.Some? && req.value.yodelId != "" && FromHex(req.value.yodelId).None? ==>
      e.payload == ErrorPayload("IDFormattingError", "ID field is formatted incorrectly!")
    ensures e.payload.Yodel? <==> req.Some? && FromHex(req.value.yodelId).Some? && FromHex(req.value.yodelId).value in yodels
    ensures e.payload.Yodel? ==>
      var y := yodels[FromHex(req.value.yodelId).value];
      e.payload == JSONModel.Yodel("", Hex(y.yodelId), y.name, "")
    ensures req.Some? && FromHex(req.value.yodelId).Some? && FromHex(req.value.yodelId).value !in yodels ==>
      e.payload == ErrorPayload("YodelDoesntExistError", "")
  {
    if req.None? then Reply(ErrorPayload("JSONDecodeError", ""))
    else if req.value.yodelId == "" then Reply(ErrorPayload("MissingIDError", "ID field cannot be empty!"))
    else
      var id := FromHex(req.value.yodelId);
      if id.None? then Reply(ErrorPayload("IDFormattingError", "ID field is formatted incorrectly!"))
      else if id.value !in yodels then Reply(ErrorPayload("YodelDoesntExistError", ""))
      else
        var y := yodels[id.value];
        Reply(JSONModel.Yodel("", Hex(y.yodelId), y.name, ""))
  }

  /**
   * Creating a yodel and then asking for the id the create answer carried returns the
   * same yodel, minus its owner.
   */
  lemma CreateThenGet(sender: User, name: string, id: ObjectId, yodels: map<ObjectId, Yodel>)
    requires name != ""
    ensures var created := YodelCreateEffect(Some(YodelCreate("", name)), sender, Some(id)).payload;
      var stored := yodels[id := PendingYodel(sender, name).(yodelId := id)];
      YodelGetEffect(Some(YodelGet("", created.yodelId)), stored).payload == created.(owner := "")
  {
  }

  /**
   * The store's yodel collection, keyed by id. Inserting assigns the new yodel's id;
   * looking one up by id either finds it or fails.
   */
  class YodelCollection {
    var Yodels: map<ObjectId, Yodel>

    constructor()
      ensures Yodels == map[]
    {
      Yodels := map[];
    }
  }

  /**
   * HandleYodelCreate against the yodel collection, which assigns `id` or, when
   * `insertOk` is false, fails. The collection gains the yodel exactly when the request
   * decodes, names it and the insert succeeds, and the answer's id then finds it again.
   */
  method HandleYodelCreate(store: YodelCollection, c: Client, req: Option<JSONModel>, id: ObjectId, insertOk: bool)
    requires req.Some? ==> req.value.YodelCreate?
    modifies store`Yodels, c`Outgoing
    ensures c.Outgoing == old(c.Outgoing) + [YodelCreateEffect(req, c.user, if insertOk then Some(id) else None).payload]
    ensures req.Some? && req.value.name != "" && insertOk ==>
      store.Yodels == old(store.Yodels)[id := PendingYodel(c.user, req.value.name).(yodelId := id)]
    ensures !(req.Some? && req.value.name != "" && insertOk) ==> store.Yodels == old(store.Yodels)
    ensures var created := YodelCreateEffect(req, c.user, if insertOk then Some(id) else None).payload;
      created.Yodel? ==>
        YodelGetEffect(Some(YodelGet("", created.yodelId)), store.Yodels).payload == created.(owner := "")
  {
    if req.Some? && req.value.name != "" && insertOk {
      store.Yodels := store.Yodels[id := PendingYodel(c.user, req.value.name).(yodelId := id)];
      CreateThenGet(c.user, req.value.name, id, old(store.Yodels));
    }
    c.Outgoing := c.Outgoing + [YodelCreateEffect(req, c.user, if insertOk then Some(id) else None).payload];
  }

  /** HandleYodelGet against the yodel collection, which it only reads. */
  method HandleYodelGet(store: YodelCollection, c: Client, req: Option<JSONModel>)
    requires req.Some? ==> req.value.YodelGet?
    modifies c`Outgoing
    ensures c.Outgoing == old(c.Outgoing) + [YodelGetEffect(req, store.Yodels).payload]
  {
    c.Outgoing := c.Outgoing + [YodelGetEffect(req, store.Yodels).payload];
  }

  // ---------------------------------------------------------------- registration

  /** NewMessageHandler: the two message tags. */
  method NewMessageHandler(hub: ServerHub)
    modifies hub`Handlers
    ensures hub.Handlers == old(hub.Handlers)["msg_send" := SendMessage]["msg_history" := MessageHistory]
  {
    hub.RegisterHandler("msg_send", SendMessage);
    hub.RegisterHandler("msg_history", MessageHistory);
  }

  /** NewIdentificationHandler: the whoami tag. */
  method NewIdentificationHandler(hub: ServerHub)
    modifies hub`Handlers
    ensures hub.Handlers == old(hub.Handlers)["whoami" := WhoAmIHandler]
  {
    hub.RegisterHandler("whoami", WhoAmIHandler);
  }

  /** NewYodelHandler: the tags of the yodel request envelopes. */
  method NewYodelHandler(hub: ServerHub)
    modifies hub`Handlers
    ensures hub.Handlers == old(hub.Handlers)[YodelCreate("", "").Type() := YodelCreateHandler][YodelGet("", "").Type() := YodelGetHandler]
    ensures "yodel_create" in hub.Handlers && "yodel_get" in hub.Handlers
  {
    hub.RegisterHandler(YodelCreate("", "").Type(), YodelCreateHandler);
    hub.RegisterHandler(YodelGet("", "").Type(), YodelGetHandler);
  }
}
