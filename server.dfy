/**
 * The hub and the per-connection client, as sequential steps over abstract queues.
 *
 * Channels become sequences: a send appends, a receive takes the head. Each
 * iteration of a task's loop is one method; the tasks' interleaving is not modelled.
 * The transport, the document store, JSON decoding and password hashing reach the
 * model only through the outcomes they produce, passed in as parameters.
 */
module Server {
  import opened Wrappers
  import opened Ids
  import opened DbModels
  import opened WebsocketModels
  import opened WaitGroups
  import StubDb

  /** The handler functions the business packages register. */
  datatype Handler = SendMessage | MessageHistory | WhoAmIHandler | YodelCreateHandler | YodelGetHandler

  /** A handler started on a raw frame (fire and forget). */
  datatype Dispatch = Dispatch(handler: Handler, raw: seq<byte>)

  /** A control event for a client's event loop, by its event type. */
  datatype ClientEvent = ClientEvent(eventType: string)

  /** ClientQuit. */
  const Quit: ClientEvent := ClientEvent("quit")

  datatype CallbackArg = PayloadArg(payload: JSONModel) | EventArg(event: string)

  /** One call of a registered callback, identified by the number it was registered as. */
  datatype Invocation = Invocation(callback: nat, args: seq<CallbackArg>)

  /** Whether a task's loop goes round again or returns. */
  datatype Control = Continue | Stop

  /** What one read from the transport produced. */
  datatype ReadOutcome =
    | CloseError                                 // a close frame or a closed connection
    | ReadError(text: string)                    // any other read failure
    | FrameRead(raw: seq<byte>, tag: Option<string>)  // a frame, and its type tag if it parses as JSON

  datatype ReadDecision = ReadDecision(reply: Option<JSONModel>, dispatch: Option<Dispatch>, next: Control)

  /** `GenericError{Error: kind, Message: text}`, untagged. */
  function ErrorPayload(kind: string, text: string): (e: JSONModel)
    ensures e.GenericError? && e.Type() == "error"
    ensures e.error == kind && e.message == text && e.nonce == "" && e.t == ""
  {
    GenericError("", "", kind, text)
  }

  /**
   * One round of the read loop: a close error ends it quietly; any other read error and
   * a frame that is not JSON end it with one BadFormat error payload; a frame whose tag
   * has a handler starts that handler; an unknown tag is ignored and the loop goes on.
   */
  function ClassifyRead(r: ReadOutcome, handlers: map<string, Handler>): (d: ReadDecision)
    ensures d.next == Continue <==> r.FrameRead? && r.tag.Some?
    ensures d.reply.Some? <==> r.ReadError? || (r.FrameRead? && r.tag.None?)
    ensures d.reply.Some? ==> d.reply.value.GenericError? && d.reply.value.error == "BadFormat"
    ensures r.FrameRead? && r.tag.None? ==> d.reply == Some(ErrorPayload("BadFormat", "Malformed JSON"))
    ensures d.dispatch.Some? <==> r.FrameRead? && r.tag.Some? && r.tag.value in handlers
    ensures d.dispatch.Some? ==> d.dispatch.value == Dispatch(handlers[r.tag.value], r.raw)
  {
    match r
    case CloseError => ReadDecision(None, None, Stop)
    case ReadError(text) => ReadDecision(Some(ErrorPayload("BadFormat", "Error decoding: " + text)), None, Stop)
    case FrameRead(raw, tag) =>
      if tag.None? then ReadDecision(Some(ErrorPayload("BadFormat", "Malformed JSON")), None, Stop)
      else if tag.value in handlers then ReadDecision(None, Some(Dispatch(handlers[tag.value], raw)), Continue)
      else ReadDecision(None, None, Continue)
  }

  /** The tracker names of a client's two tasks. */
  function ReadLoopName(u: User): string
  {
    "Client_ListenOnWebsocket__" + Hex(u.userId)
  }

  function EventLoopName(u: User): string
  {
    "Client_ListenOnEventLoop__" + Hex(u.userId)
  }

  lemma PrefixCancels(p: string, a: string, b: string)
    requires p + a == p + b
    ensures a == b
  {
    assert a == (p + a)[|p|..];
    assert b == (p + b)[|p|..];
  }

  /**
   * The two tasks of a client never share a tracker name, and two clients' tasks share
   * one exactly when the clients' users have the same id.
   */
  lemma LoopNamesDistinct(u: User, v: User)
    ensures ReadLoopName(u) != EventLoopName(v)
    ensures ReadLoopName(u) == ReadLoopName(v) <==> u.userId == v.userId
    ensures EventLoopName(u) == EventLoopName(v) <==> u.userId == v.userId
  {
    assert ReadLoopName(u)[15] == 'W' && EventLoopName(v)[15] == 'E';
    HexInjective(u.userId, v.userId);
    if ReadLoopName(u) == ReadLoopName(v) {
      PrefixCancels("Client_ListenOnWebsocket__", Hex(u.userId), Hex(v.userId));
    }
    if EventLoopName(u) == EventLoopName(v) {
      PrefixCancels("Client_ListenOnEventLoop__", Hex(u.userId), Hex(v.userId));
    }
  }

  /**
   * A client whose tasks are not yet tracked starts both and, whichever exits first,
   * finishing both leaves the tracker as it was: a client's life leaks no task.
   */
  lemma ClientTasksLeaveTrackerUnchanged(s: TrackerState, u: User, readExitsFirst: bool)
    requires ReadLoopName(u) !in s.names && EventLoopName(u) !in s.names
    ensures var started := AddSpec(AddSpec(s, 1, EventLoopName(u)), 1, ReadLoopName(u));
      (if readExitsFirst then DoneSpec(DoneSpec(started, ReadLoopName(u)), EventLoopName(u))
       else DoneSpec(DoneSpec(started, EventLoopName(u)), ReadLoopName(u))) == s
  {
    LoopNamesDistinct(u, u);
    var r, e := ReadLoopName(u), EventLoopName(u);
    assert s.names + {e} + {r} - {r} - {e} == s.names;
    assert s.names + {e} + {r} - {e} - {r} == s.names;
  }

  /** The tracker names of the hub's own tasks. */
  const BroadcastLoopName := "BroadcastPayloadLoop"
  const MainLoopName := "MainEventLoop"
  const RunName := "ServerHub_Run"

  /** A client whose close flag and quit queue are still as recorded in `was`. */
  ghost predicate Untouched(c: Client, was: (bool, seq<ClientEvent>))
    reads c
  {
    c.Closed == was.0 && c.EventQueue == was.1
  }

  /** A client closed by the shutdown sweep, starting from the flag and queue in `was`. */
  ghost predicate Swept(c: Client, was: (bool, seq<ClientEvent>))
    reads c
  {
    c.Closed && c.ConnClosed && c.EventQueue == was.1 + (if was.0 then [] else [Quit])
  }

  class Client {
    const hub: ServerHub
    const user: User
    var Closed: bool
    /** conn.Close() has been called. */
    var ConnClosed: bool
    /** Sends pending on the control-event channel, oldest first. */
    var EventQueue: seq<ClientEvent>
    /** Sends pending on the outgoing payload channel, oldest first. */
    var Outgoing: seq<JSONModel>
    /** Payloads written to the transport, in order. */
    var Sent: seq<JSONModel>

    /** The registry key of this client: its user's id in hex, fixed when it is built. */
    const key: string

    function Key(): string
    {
      key
    }

    /**
     * New (state only): empty queues, and the user reloaded from the hub's store by
     * username, keeping just the username when the store has no such user. The store
     * panics on an empty username.
     */
    constructor New(hub: ServerHub, username: string)
      requires hub.Database.Valid() && username != ""
      ensures this.hub == hub
      ensures user == (if username in hub.Database.UsersByUsername then hub.Database.UsersByUsername[username]
                       else NamedUser(username))
      ensures key == Hex(user.userId)
      ensures !Closed && !ConnClosed
      ensures EventQueue == [] && Outgoing == [] && Sent == []
    {
      var found, _ := hub.Database.GetUser(NamedUser(username));
      this.hub := hub;
      this.user := found;
      key := Hex(found.userId);
      Closed, ConnClosed := false, false;
      EventQueue, Outgoing, Sent := [], [], [];
    }

    /**
     * Close may be called any number of times. A non-empty tracker name is reported
     * done; the quit event is sent only while the client is still open; afterwards the
     * client is closed, out of the registry, and its transport closed.
     */
    method Close(wgId: string)
      requires wgId != "" ==> hub.Wg.Valid() && hub.Wg.WaitGroup > 0
      modifies this`Closed, this`ConnClosed, this`EventQueue, hub`Clients, hub.Wg
      ensures Closed && ConnClosed
      ensures EventQueue == old(EventQueue) + (if old(Closed) then [] else [Quit])
      ensures hub.Clients == old(hub.Clients) - {Key()}
      ensures wgId != "" ==> hub.Wg.Valid() && hub.Wg.State() == DoneSpec(old(hub.Wg.State()), wgId)
      ensures wgId == "" ==> unchanged(hub.Wg)
    {
      if wgId != "" {
        hub.Wg.Done(wgId);
      }
      if !Closed {
        EventQueue := EventQueue + [Quit];
      }
      Closed := true;
      hub.Clients := hub.Clients - {Key()};
      ConnClosed := true;
    }

    /** The transport's close callback: a quit event, unconditionally, and the closed flag. */
    method OnClose(code: int, text: string) returns (err: Option<string>)
      modifies this`EventQueue, this`Closed
      ensures EventQueue == old(EventQueue) + [Quit]
      ensures Closed
      ensures err == None
    {
      EventQueue := EventQueue + [Quit];
      Closed := true;
      err := None;
    }

    /** Entry of the read task: it registers under its own name. */
    method StartListenOnWebsocket()
      requires hub.Wg.Valid()
      modifies hub.Wg
      ensures hub.Wg.Valid()
      ensures hub.Wg.State() == AddSpec(old(hub.Wg.State()), 1, ReadLoopName(user))
    {
      var _ := hub.Wg.Add(1, ReadLoopName(user));
    }

    /** One round of the read task, given what the transport produced. */
    method ListenOnWebsocketStep(r: ReadOutcome) returns (next: Control, dispatch: Option<Dispatch>)
      modifies this`Outgoing
      ensures var d := ClassifyRead(r, hub.Handlers);
        && next == d.next
        && dispatch == d.dispatch
        && Outgoing == old(Outgoing) + OptionToSeq(d.reply)
    {
      match r {
        case CloseError =>
          return Stop, None;
        case ReadError(text) =>
          Outgoing := Outgoing + [ErrorPayload("BadFormat", "Error decoding: " + text)];
          return Stop, None;
        case FrameRead(raw, tag) =>
          if tag.None? {
            Outgoing := Outgoing + [ErrorPayload("BadFormat", "Malformed JSON")];
            return Stop, None;
          }
          if tag.value in hub.Handlers {
            return Continue, Some(Dispatch(hub.Handlers[tag.value], raw));
          }
          return Continue, None;
      }
    }

    /** Exit of the read task, deferred: the client closes and reports the read task done. */
    method ListenOnWebsocketExit()
      requires hub.Wg.Valid() && hub.Wg.WaitGroup > 0
      modifies this`Closed, this`ConnClosed, this`EventQueue, hub`Clients, hub.Wg
      ensures Closed && ConnClosed
      ensures EventQueue == old(EventQueue) + (if old(Closed) then [] else [Quit])
      ensures hub.Clients == old(hub.Clients) - {Key()}
      ensures hub.Wg.Valid() && hub.Wg.State() == DoneSpec(old(hub.Wg.State()), ReadLoopName(user))
    {
      Close(ReadLoopName(user));
    }

    /** Entry of the event task. */
    method StartListenOnEventLoop()
      requires hub.Wg.Valid()
      modifies hub.Wg
      ensures hub.Wg.Valid()
      ensures hub.Wg.State() == AddSpec(old(hub.Wg.State()), 1, EventLoopName(user))
    {
      var _ := hub.Wg.Add(1, EventLoopName(user));
    }

    /**
     * One round of the event task. The select takes the head of the control queue when
     * `takeEvent`, else the head of the outgoing queue: a quit event closes the client
     * and ends the task, any other event is ignored; a payload that arrives once the
     * client is closed ends the task unwritten; otherwise the stamped payload is written,
     * and a failed write closes the client and ends the task.
     */
    method ListenOnEventLoopStep(takeEvent: bool, writeOk: bool) returns (next: Control)
      requires takeEvent ==> EventQueue != []
      requires !takeEvent ==> Outgoing != []
      modifies this`EventQueue, this`Outgoing, this`Closed, this`Sent
      ensures takeEvent ==>
        && EventQueue == old(EventQueue)[1..] && Outgoing == old(Outgoing) && Sent == old(Sent)
        && (if old(EventQueue)[0].eventType == "quit" then Closed && next == Stop
            else Closed == old(Closed) && next == Continue)
      ensures !takeEvent ==>
        && EventQueue == old(EventQueue) && Outgoing == old(Outgoing)[1..]
        && (if old(Closed) then Closed && Sent == old(Sent) && next == Stop
            else if writeOk then !Closed && Sent == old(Sent) + [old(Outgoing)[0].SetType()] && next == Continue
            else Closed && Sent == old(Sent) && next == Stop)
    {
      if takeEvent {
        var e := EventQueue[0];
        EventQueue := EventQueue[1..];
        if e.eventType == "quit" {
          Closed := true;
          return Stop;
        }
        return Continue;
      }
      var m := Outgoing[0];
      Outgoing := Outgoing[1..];
      if Closed {
        return Stop;
      }
      if !writeOk {
        Closed := true;
        return Stop;
      }
      Sent := Sent + [m.SetType()];
      return Continue;
    }

    /** Exit of the event task, deferred: the client closes and reports the event task done. */
    method ListenOnEventLoopExit()
      requires hub.Wg.Valid() && hub.Wg.WaitGroup > 0
      modifies this`Closed, this`ConnClosed, this`EventQueue, hub`Clients, hub.Wg
      ensures Closed && ConnClosed
      ensures EventQueue == old(EventQueue) + (if old(Closed) then [] else [Quit])
      ensures hub.Clients == old(hub.Clients) - {Key()}
      ensures hub.Wg.Valid() && hub.Wg.State() == DoneSpec(old(hub.Wg.State()), EventLoopName(user))
    {
      Close(EventLoopName(user));
    }
  }

  class ServerHub {
    /** The registry of live clients, by user key. */
    var Clients: map<string, Client>
    /** Sends pending on the hub's broadcast channel, oldest first. */
    var BroadcastQueue: seq<JSONModel>
    /** The dispatch table: type tag to handler. */
    var Handlers: map<string, Handler>
    /** Registered callbacks, by event name. */
    var Callbacks: map<string, nat>
    /** Callback calls made so far, in order. */
    var Fired: seq<Invocation>
    const Wg: WaitGroupCounter
    const Database: StubDb.StubDatabase
    /** Ctx and Shutdown have been assigned. */
    var ContextSet: bool
    /** Shutdown() has been called. */
    var ShutdownRequested: bool
    var BroadcastLoopCancelled: bool
    var MainLoopCancelled: bool

    /** Every registered client belongs to this hub and sits under its own key. */
    ghost predicate Valid()
      reads this, Clients.Values
    {
      forall k :: k in Clients ==> Clients[k].Key() == k && Clients[k].hub == this
    }

    /** The hub struct as first built: empty registry, queue and tables. */
    constructor (wg: WaitGroupCounter, database: StubDb.StubDatabase)
      ensures Valid()
      ensures Wg == wg && Database == database
      ensures Clients == map[] && BroadcastQueue == [] && Handlers == map[] && Callbacks == map[] && Fired == []
      ensures !ContextSet && !ShutdownRequested && !BroadcastLoopCancelled && !MainLoopCancelled
    {
      Wg, Database := wg, database;
      Clients, BroadcastQueue, Handlers, Callbacks, Fired := map[], [], map[], map[], [];
      ContextSet, ShutdownRequested, BroadcastLoopCancelled, MainLoopCancelled := false, false, false, false;
    }

    /** Maps `messageType` to `handler`, replacing an earlier registration for it. */
    method RegisterHandler(messageType: string, handler: Handler)
      modifies this`Handlers
      ensures Handlers == old(Handlers)[messageType := handler]
    {
      Handlers := Handlers[messageType := handler];
    }

    method RegisterCallback(event: string, f: nat)
      modifies this`Callbacks
      ensures Callbacks == old(Callbacks)[event := f]
    {
      Callbacks := Callbacks[event := f];
    }

    /** Calls the callback registered under `name`, if there is one. */
    method CallCallbackIfExists(name: string, args: seq<CallbackArg>)
      modifies this`Fired
      ensures name in Callbacks ==> Fired == old(Fired) + [Invocation(Callbacks[name], args)]
      ensures name !in Callbacks ==> Fired == old(Fired)
    {
      if name in Callbacks {
        Fired := Fired + [Invocation(Callbacks[name], args)];
      }
    }

    /** The objects in the registry. */
    ghost function ClientSet(): set<Client>
      reads this
    {
      Clients.Values
    }

    /** Entry of the broadcast task. */
    method StartBroadcastLoop()
      requires Wg.Valid()
      modifies Wg
      ensures Wg.Valid() && Wg.State() == AddSpec(old(Wg.State()), 1, BroadcastLoopName)
    {
      var _ := Wg.Add(1, BroadcastLoopName);
    }

    /**
     * One round of the broadcast task receiving payload `d`: every registered client's
     * outgoing queue gets `d` once, then the BroadcastPayload callback runs.
     */
    method BroadcastStep()
      requires Valid() && BroadcastQueue != []
      modifies this`BroadcastQueue, this`Fired, ClientSet()`Outgoing
      ensures Valid() && Clients == old(Clients)
      ensures BroadcastQueue == old(BroadcastQueue)[1..]
      ensures forall k :: k in Clients ==> Clients[k].Outgoing == old(Clients[k].Outgoing) + [old(BroadcastQueue)[0]]
      ensures "BroadcastPayload" in Callbacks ==>
        Fired == old(Fired) + [Invocation(Callbacks["BroadcastPayload"], [PayloadArg(old(BroadcastQueue)[0])])]
      ensures "BroadcastPayload" !in Callbacks ==> Fired == old(Fired)
    {
      var d := BroadcastQueue[0];
      BroadcastQueue := BroadcastQueue[1..];
      var pending := Clients.Keys;
      while pending != {}
        invariant pending <= Clients.Keys
        invariant BroadcastQueue == old(BroadcastQueue)[1..] && Fired == old(Fired)
        invariant forall k :: k in Clients ==>
          Clients[k].Outgoing == old(Clients[k].Outgoing) + (if k in pending then [] else [d])
        decreases pending
      {
        var k :| k in pending;
        var c := Clients[k];
        c.Outgoing := c.Outgoing + [d];
        pending := pending - {k};
      }
      CallCallbackIfExists("BroadcastPayload", [PayloadArg(d)]);
    }

    /** The broadcast task's exit once cancelled: report done, then the loop-done callback. */
    method BroadcastLoopExit()
      requires BroadcastLoopCancelled && Wg.Valid() && Wg.WaitGroup > 0
      modifies Wg, this`Fired
      ensures Wg.Valid() && Wg.State() == DoneSpec(old(Wg.State()), BroadcastLoopName)
      ensures "BroadcastPayloadLoopDone" in Callbacks ==>
        Fired == old(Fired) + [Invocation(Callbacks["BroadcastPayloadLoopDone"], [])]
      ensures "BroadcastPayloadLoopDone" !in Callbacks ==> Fired == old(Fired)
    {
      Wg.Done(BroadcastLoopName);
      CallCallbackIfExists("BroadcastPayloadLoopDone", []);
    }

    /** Entry of the main-event task. */
    method StartMainLoop()
      requires Wg.Valid()
      modifies Wg
      ensures Wg.Valid() && Wg.State() == AddSpec(old(Wg.State()), 1, MainLoopName)
    {
      var _ := Wg.Add(1, MainLoopName);
    }

    /** One round of the main-event task: the event is handed to the MainLoopEvent callback. */
    method MainLoopEventStep(event: string)
      modifies this`Fired
      ensures "MainLoopEvent" in Callbacks ==>
        Fired == old(Fired) + [Invocation(Callbacks["MainLoopEvent"], [EventArg(event)])]
      ensures "MainLoopEvent" !in Callbacks ==> Fired == old(Fired)
    {
      CallCallbackIfExists("MainLoopEvent", [EventArg(event)]);
    }

    method MainLoopExit()
      requires MainLoopCancelled && Wg.Valid() && Wg.WaitGroup > 0
      modifies Wg, this`Fired
      ensures Wg.Valid() && Wg.State() == DoneSpec(old(Wg.State()), MainLoopName)
      ensures "MainEventLoopDone" in Callbacks ==>
        Fired == old(Fired) + [Invocation(Callbacks["MainEventLoopDone"], [])]
      ensures "MainEventLoopDone" !in Callbacks ==> Fired == old(Fired)
    {
      Wg.Done(MainLoopName);
      CallCallbackIfExists("MainEventLoopDone", []);
    }

    /** The start of Run: both loops, then Run itself, register with the tracker. */
    method RunStart()
      requires ContextSet && Wg.Valid()
      modifies Wg
      ensures Wg.Valid()
      ensures Wg.State() == AddSpec(AddSpec(AddSpec(old(Wg.State()), 1, BroadcastLoopName), 1, MainLoopName), 1, RunName)
    {
      StartBroadcastLoop();
      StartMainLoop();
      var _ := Wg.Add(1, RunName);
    }

    /** Shutdown(): cancels the hub's context. */
    method RequestShutdown()
      requires ContextSet
      modifies this`ShutdownRequested
      ensures ShutdownRequested
    {
      ShutdownRequested := true;
    }

    /**
     * Closes every registered client with an empty tracker name, so that no client task
     * is reported done here, and leaves the registry empty.
     */
    method CloseAllClients()
      requires Valid()
      modifies this`Clients, Wg, ClientSet()`Closed, ClientSet()`ConnClosed, ClientSet()`EventQueue
      ensures Clients == map[] && unchanged(Wg)
      ensures forall k :: k in old(Clients) ==>
        && old(Clients)[k].Closed && old(Clients)[k].ConnClosed
        && old(Clients)[k].EventQueue == old(Clients[k].EventQueue) + (if old(Clients[k].Closed) then [] else [Quit])
    {
      ghost var registered := Clients;
      ghost var before := map k | k in Clients :: (Clients[k].Closed, Clients[k].EventQueue);
      while Clients != map[]
        invariant Clients.Keys <= registered.Keys && unchanged(Wg)
        invariant forall k :: k in Clients ==> Clients[k] == registered[k]
        invariant forall k :: k in registered ==> registered[k].Key() == k && registered[k].hub == this
        invariant forall k :: k in registered ==>
          if k in Clients then Untouched(registered[k], before[k]) else Swept(registered[k], before[k])
        decreases Clients.Keys
      {
        var k :| k in Clients;
        var c := Clients[k];
        c.Close("");
      }
    }

    /**
     * The rest of Run, once the context is cancelled: every registered client is closed,
     * both loops are cancelled, and Run reports itself done.
     */
    method RunShutdownSweep()
      requires Valid() && ShutdownRequested
      requires Wg.Valid() && Wg.WaitGroup > 0
      modifies this`Clients, this`BroadcastLoopCancelled, this`MainLoopCancelled, Wg
      modifies ClientSet()`Closed, ClientSet()`ConnClosed, ClientSet()`EventQueue
      ensures Clients == map[]
      ensures forall k :: k in old(Clients) ==>
        && old(Clients)[k].Closed && old(Clients)[k].ConnClosed
        && old(Clients)[k].EventQueue == old(Clients[k].EventQueue) + (if old(Clients[k].Closed) then [] else [Quit])
      ensures BroadcastLoopCancelled && MainLoopCancelled
      ensures Wg.Valid() && Wg.State() == DoneSpec(old(Wg.State()), RunName)
    {
      CloseAllClients();
      BroadcastLoopCancelled := true;
      MainLoopCancelled := true;
      Wg.Done(RunName);
    }

    /**
     * Upgrade: when the transport upgrade succeeds, a new client for the user is built
     * and stored under its key, replacing whatever client was stored there.
     */
    method Upgrade(upgradeOk: bool, nick: string) returns (c: Client?)
      requires Valid() && Database.Valid() && (upgradeOk ==> nick != "")
      modifies this`Clients
      ensures Valid()
      ensures !upgradeOk ==> c == null && Clients == old(Clients)
      ensures upgradeOk ==>
        && c != null && fresh(c) && c.hub == this
        && c.user == (if nick in Database.UsersByUsername then Database.UsersByUsername[nick] else NamedUser(nick))
        && c.Key() == Hex(c.user.userId)
        && !c.Closed && c.Outgoing == [] && c.EventQueue == []
        && Clients == old(Clients)[c.Key() := c]
    {
      if !upgradeOk {
        return null;
      }
      c := new Client.New(this, nick);
      Clients := Clients[c.Key() := c];
    }
  }
}
