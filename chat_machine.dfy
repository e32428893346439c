/**
 * The single-session chat protocol of index.js:21-149 as a pure state
 * machine. A ChatState holds the Chat object's flags and two append-only
 * logs: the events emitted to the application and the actions issued on the
 * transport. Each transport callback and each public operation is a
 * transition; the class ChatSession.Chat is specified by these functions.
 */
module ChatMachine {
  import opened JsValues
  import opened ChatOptions

  const UnexpectedDisconnection := "unexpected DDP disconnection"
  const NotCreatedYet := "chat has not been created yet"
  const AlreadyClosed := "chat was already closed"

  /** What an `error` event carries: an Error raised by the client itself, or a value from the transport. */
  datatype ErrorValue = LocalError(message: string) | RemoteError(value: JsValue)

  /** The events the Chat emits; the payloads of agentIsTyping and agentId are the pushed values. */
  datatype Event =
    | Ready
    | Error(error: ErrorValue)
    | Message(fields: Fields)
    | AgentIsTyping(agentIsTyping: JsValue)
    | AgentId(agentId: JsValue)
    | Closed

  /** Outgoing transport actions: a remote call, a subscription, severing the connection. */
  datatype Action =
    | Call(name: string, args: seq<JsValue>)
    | Subscribe(name: string, args: seq<JsValue>)
    | Disconnect

  /** What sendMessage and setUserIsTyping return: a rejected promise, or the remote call's promise. */
  datatype SendOutcome = Rejected(reason: string) | Forwarded

  datatype ChatState = ChatState(
    closed: bool,
    expectedDisconnect: bool,
    chatId: JsValue,
    agentIsTyping: bool,
    agentId: JsValue,
    events: seq<Event>,
    actions: seq<Action>)

  /** Everything that can happen to a Chat after it was constructed. */
  datatype Input =
    | Created(id: JsValue)
    | CreateFailed(err: JsValue)
    | SubscriptionReady
    | SubscriptionFailed(err: JsValue)
    | Added(collection: string, fields: Fields)
    | Changed(collection: string, fields: Fields)
    | Disconnected
    | SendMessageCalled(message: JsValue)
    | SetUserIsTypingCalled(userIsTyping: JsValue)
    | CloseCalled

  const UnexpectedDisconnectError := Error(LocalError(UnexpectedDisconnection))

  /** The state right after a successful construction: only the createChat call has been issued. */
  function Initial(o: Options): ChatState
  {
    ChatState(false, false, Undefined, false, Null, [], [Call("createChat", CreateChatArgs(o))])
  }

  function Emit(s: ChatState, e: Event): ChatState
  {
    s.(events := s.events + [e])
  }

  /** close(): the flag is set, the chat is closed and the connection severed. */
  function Close(s: ChatState): ChatState
  {
    s.(expectedDisconnect := true, closed := true, actions := s.actions + [Disconnect])
  }

  /** The createChat call resolved with id: remember it and subscribe to userChat for it. */
  function OnCreated(s: ChatState, id: JsValue): ChatState
  {
    s.(chatId := id, actions := s.actions + [Subscribe("userChat", [id])])
  }

  /** The createChat call rejected: emit the error, then close. */
  function OnCreateFailed(s: ChatState, err: JsValue): ChatState
  {
    Close(Emit(s, Error(RemoteError(err))))
  }

  function OnSubscriptionReady(s: ChatState): ChatState
  {
    Emit(s, Ready)
  }

  /** The userChat subscription failed: emit the error, then close. */
  function OnSubscriptionError(s: ChatState, err: JsValue): ChatState
  {
    Close(Emit(s, Error(RemoteError(err))))
  }

  /** _chatUpdated: one event per key present, then, when isClosed is truthy, `closed` and close(). */
  function ChatUpdated(s: ChatState, f: Fields): ChatState
  {
    var s1 := if "agentIsTyping" in f then Emit(s, AgentIsTyping(f["agentIsTyping"])) else s;
    var s2 := if "agentId" in f then Emit(s1, AgentId(f["agentId"])) else s1;
    if Truthy(Prop(f, "isClosed")) then Close(Emit(s2, Closed)) else s2
  }

  function OnAdded(s: ChatState, collection: string, f: Fields): ChatState
  {
    if collection == "chats" then ChatUpdated(s, f)
    else if collection == "messages" then Emit(s, Message(f))
    else s
  }

  function OnChanged(s: ChatState, collection: string, f: Fields): ChatState
  {
    if collection == "chats" then ChatUpdated(s, f) else s
  }

  function OnDisconnected(s: ChatState): ChatState
  {
    if !s.expectedDisconnect then Emit(s.(closed := true), UnexpectedDisconnectError) else s
  }

  /** The guards shared by sendMessage and setUserIsTyping, in the source's order, then the remote call. */
  function Guarded(s: ChatState, name: string, arg: JsValue): (ChatState, SendOutcome)
  {
    if IsNullish(s.chatId) then (s, Rejected(NotCreatedYet))
    else if s.closed then (s, Rejected(AlreadyClosed))
    else (s.(actions := s.actions + [Call(name, [s.chatId, arg])]), Forwarded)
  }

  function SendMessage(s: ChatState, message: JsValue): (ChatState, SendOutcome)
  {
    Guarded(s, "postMessageAsUser", message)
  }

  function SetUserIsTyping(s: ChatState, userIsTyping: JsValue): (ChatState, SendOutcome)
  {
    Guarded(s, "setUserIsTyping", userIsTyping)
  }

  function Step(s: ChatState, i: Input): ChatState
  {
    match i
    case Created(id) => OnCreated(s, id)
    case CreateFailed(err) => OnCreateFailed(s, err)
    case SubscriptionReady => OnSubscriptionReady(s)
    case SubscriptionFailed(err) => OnSubscriptionError(s, err)
    case Added(c, f) => OnAdded(s, c, f)
    case Changed(c, f) => OnChanged(s, c, f)
    case Disconnected => OnDisconnected(s)
    case SendMessageCalled(m) => SendMessage(s, m).0
    case SetUserIsTypingCalled(b) => SetUserIsTyping(s, b).0
    case CloseCalled => Close(s)
  }

  function Run(s: ChatState, inputs: seq<Input>): ChatState
    decreases |inputs|
  {
    if inputs == [] then s else Run(Step(s, inputs[0]), inputs[1..])
  }

  /**
   * What holds of every reachable state: the expected-disconnect flag is set
   * exactly when the connection was severed, and then the chat is closed; a
   * closed chat was either closed by close() or lost its connection
   * unexpectedly; the first action is the createChat call; the agent fields
   * keep their initial values.
   */
  ghost predicate Inv(s: ChatState)
  {
    && (s.expectedDisconnect ==> s.closed)
    && (s.expectedDisconnect <==> Disconnect in s.actions)
    && (s.closed <==> s.expectedDisconnect || UnexpectedDisconnectError in s.events)
    && |s.actions| >= 1 && s.actions[0].Call? && s.actions[0].name == "createChat"
    && !s.agentIsTyping && s.agentId == Null
  }

  ghost predicate IsPrefix<T>(a: seq<T>, b: seq<T>)
  {
    |a| <= |b| && b[..|a|] == a
  }

  /** A constructed chat has emitted nothing and issued exactly createChat(customerId, topic, team, "text", signedContext, signature, unsignedContext). */
  lemma InitialState(o: Options)
    ensures Inv(Initial(o))
    ensures !Initial(o).closed && !Initial(o).expectedDisconnect && Initial(o).chatId == Undefined
    ensures Initial(o).events == []
    ensures Initial(o).actions
            == [Call("createChat", [Str(o.customerId), o.topic, o.team, Str("text"), o.signedContext, o.signature, o.unsignedContext])]
  {
  }

  /** Given options that normalise, the chat's only action is the createChat call built from them. */
  lemma CreateChatCallFromOptions(given: Fields, serialize: JsValue -> string)
    requires Normalise(given, serialize).Success?
    ensures Initial(Normalise(given, serialize).value).actions
            == [Call("createChat", [given["customerId"],
                                    GivenOr(given, "topic", Str(DefaultTopic)),
                                    GivenOr(given, "team", Str(DefaultTeam)),
                                    Str("text"),
                                    GivenOr(given, "signedContext", Null),
                                    GivenOr(given, "signature", Null),
                                    SentUnsignedContext(GivenOr(given, "unsignedContext", Null), serialize)])]
  {
  }

  /** Inv survives a transition that appends ne and na to the logs and sets the flags consistently with them. */
  lemma InvAfterAppend(s: ChatState, t: ChatState, ne: seq<Event>, na: seq<Action>)
    requires Inv(s)
    requires t.events == s.events + ne && t.actions == s.actions + na
    requires t.agentIsTyping == s.agentIsTyping && t.agentId == s.agentId
    requires t.expectedDisconnect <==> s.expectedDisconnect || Disconnect in na
    requires t.expectedDisconnect ==> t.closed
    requires t.closed <==> s.closed || t.expectedDisconnect || UnexpectedDisconnectError in ne
    ensures Inv(t)
  {
    assert t.actions[0] == s.actions[0];
  }

  /** Emitting anything but the unexpected-disconnection error keeps Inv. */
  lemma EmitPreservesInv(s: ChatState, e: Event)
    requires Inv(s)
    requires e != UnexpectedDisconnectError
    ensures Inv(Emit(s, e))
  {
    InvAfterAppend(s, Emit(s, e), [e], []);
  }

  lemma StepPreservesInv(s: ChatState, i: Input)
    requires Inv(s)
    ensures Inv(Step(s, i))
  {
    var t := Step(s, i);
    match i {
      case Added(c, f) =>
        if c == "chats" {
          ChatUpdatedPreservesInv(s, f);
        } else if c == "messages" {
          InvAfterAppend(s, t, [Message(f)], []);
        }
      case Changed(c, f) =>
        if c == "chats" {
          ChatUpdatedPreservesInv(s, f);
        }
      case Created(id) =>
        InvAfterAppend(s, t, [], [Subscribe("userChat", [id])]);
      case CreateFailed(err) =>
        InvAfterAppend(s, t, [Error(RemoteError(err))], [Disconnect]);
      case SubscriptionReady =>
        InvAfterAppend(s, t, [Ready], []);
      case SubscriptionFailed(err) =>
        InvAfterAppend(s, t, [Error(RemoteError(err))], [Disconnect]);
      case Disconnected =>
        if !s.expectedDisconnect {
          InvAfterAppend(s, t, [UnexpectedDisconnectError], []);
        }
      case SendMessageCalled(m) =>
        if t != s {
          InvAfterAppend(s, t, [], [Call("postMessageAsUser", [s.chatId, m])]);
        }
      case SetUserIsTypingCalled(b) =>
        if t != s {
          InvAfterAppend(s, t, [], [Call("setUserIsTyping", [s.chatId, b])]);
        }
      case CloseCalled =>
        InvAfterAppend(s, t, [], [Disconnect]);
    }
  }

  lemma ChatUpdatedPreservesInv(s: ChatState, f: Fields)
    requires Inv(s)
    ensures Inv(ChatUpdated(s, f))
  {
    ChatUpdatedEvents(s, f);
    var na: seq<Action> := if Truthy(Prop(f, "isClosed")) then [Disconnect] else [];
    var ne := DispatchedEvents(f);
    assert forall k :: 0 <= k < |ne| ==> !ne[k].Error?;
    InvAfterAppend(s, ChatUpdated(s, f), ne, na);
  }

  /** The events _chatUpdated emits for a push with fields f, in order. */
  function DispatchedEvents(f: Fields): seq<Event>
  {
    (if "agentIsTyping" in f then [AgentIsTyping(f["agentIsTyping"])] else [])
    + (if "agentId" in f then [AgentId(f["agentId"])] else [])
    + (if Truthy(Prop(f, "isClosed")) then [Closed] else [])
  }

  lemma ChatUpdatedEvents(s: ChatState, f: Fields)
    ensures ChatUpdated(s, f).events == s.events + DispatchedEvents(f)
    ensures ChatUpdated(s, f).actions == if Truthy(Prop(f, "isClosed")) then s.actions + [Disconnect] else s.actions
    ensures ChatUpdated(s, f).chatId == s.chatId
    ensures ChatUpdated(s, f).agentIsTyping == s.agentIsTyping && ChatUpdated(s, f).agentId == s.agentId
    ensures Truthy(Prop(f, "isClosed")) ==> ChatUpdated(s, f).closed && ChatUpdated(s, f).expectedDisconnect
    ensures !Truthy(Prop(f, "isClosed")) ==>
              ChatUpdated(s, f).closed == s.closed && ChatUpdated(s, f).expectedDisconnect == s.expectedDisconnect
    ensures forall k :: 0 <= k < |DispatchedEvents(f)| ==> !DispatchedEvents(f)[k].Error?
  {
    var s1 := if "agentIsTyping" in f then Emit(s, AgentIsTyping(f["agentIsTyping"])) else s;
    var s2 := if "agentId" in f then Emit(s1, AgentId(f["agentId"])) else s1;
    var fieldEvents := (if "agentIsTyping" in f then [AgentIsTyping(f["agentIsTyping"])] else [])
                       + (if "agentId" in f then [AgentId(f["agentId"])] else []);
    assert s2.events == s.events + fieldEvents;
    var closing := if Truthy(Prop(f, "isClosed")) then [Closed] else [];
    assert DispatchedEvents(f) == fieldEvents + closing;
  }

  lemma AppendIsPrefix<T>(a: seq<T>, t: seq<T>)
    ensures IsPrefix(a, a + t)
  {
    assert (a + t)[..|a|] == a;
  }

  /** Every transition only appends to the two logs, and never clears closed or expectedDisconnect. */
  lemma StepAppends(s: ChatState, i: Input)
    ensures IsPrefix(s.events, Step(s, i).events)
    ensures IsPrefix(s.actions, Step(s, i).actions)
    ensures s.closed ==> Step(s, i).closed
    ensures s.expectedDisconnect ==> Step(s, i).expectedDisconnect
  {
    var t := Step(s, i);
    match i {
      case Added(c, f) =>
        if c == "chats" {
          ChatUpdatedEvents(s, f);
          AppendIsPrefix(s.events, DispatchedEvents(f));
          AppendIsPrefix(s.actions, t.actions[|s.actions|..]);
        } else {
          AppendIsPrefix(s.events, t.events[|s.events|..]);
        }
      case Changed(c, f) =>
        if c == "chats" {
          ChatUpdatedEvents(s, f);
          AppendIsPrefix(s.events, DispatchedEvents(f));
          AppendIsPrefix(s.actions, t.actions[|s.actions|..]);
        }
      case Created(id) =>
        AppendIsPrefix(s.actions, [Subscribe("userChat", [id])]);
      case CreateFailed(err) =>
        AppendIsPrefix(s.events, [Error(RemoteError(err))]);
        AppendIsPrefix(s.actions, [Disconnect]);
      case SubscriptionReady =>
        AppendIsPrefix(s.events, [Ready]);
      case SubscriptionFailed(err) =>
        AppendIsPrefix(s.events, [Error(RemoteError(err))]);
        AppendIsPrefix(s.actions, [Disconnect]);
      case Disconnected =>
        AppendIsPrefix(s.events, [UnexpectedDisconnectError]);
      case SendMessageCalled(m) =>
        AppendIsPrefix(s.actions, [Call("postMessageAsUser", [s.chatId, m])]);
      case SetUserIsTypingCalled(b) =>
        AppendIsPrefix(s.actions, [Call("setUserIsTyping", [s.chatId, b])]);
      case CloseCalled =>
        AppendIsPrefix(s.actions, [Disconnect]);
    }
  }

  lemma {:induction false} RunPreservesInv(s: ChatState, inputs: seq<Input>)
    requires Inv(s)
    ensures Inv(Run(s, inputs))
    decreases |inputs|
  {
    if inputs != [] {
      StepPreservesInv(s, inputs[0]);
      RunPreservesInv(Step(s, inputs[0]), inputs[1..]);
    }
  }

  /** The logs are append-only over any run, and a closed chat never reopens. */
  lemma {:induction false} RunAppends(s: ChatState, inputs: seq<Input>)
    ensures IsPrefix(s.events, Run(s, inputs).events)
    ensures IsPrefix(s.actions, Run(s, inputs).actions)
    ensures s.closed ==> Run(s, inputs).closed
    ensures s.expectedDisconnect ==> Run(s, inputs).expectedDisconnect
    decreases |inputs|
  {
    if inputs != [] {
      var t := Step(s, inputs[0]);
      StepAppends(s, inputs[0]);
      RunAppends(t, inputs[1..]);
      var r := Run(t, inputs[1..]);
      assert r.events[..|s.events|] == r.events[..|t.events|][..|s.events|];
      assert r.actions[..|s.actions|] == r.actions[..|t.actions|][..|s.actions|];
    }
  }

  /** Where each part of DispatchedEvents(f) sits: the typing event, then the agent event, then `closed`. */
  lemma DispatchedLayout(f: Fields)
    ensures var ev := DispatchedEvents(f);
      var nt := if "agentIsTyping" in f then 1 else 0;
      var na := if "agentId" in f then 1 else 0;
      var nc := if Truthy(Prop(f, "isClosed")) then 1 else 0;
      && |ev| == nt + na + nc
      && (forall k :: 0 <= k < nt ==> ev[k] == AgentIsTyping(f["agentIsTyping"]))
      && (forall k :: nt <= k < nt + na ==> ev[k] == AgentId(f["agentId"]))
      && (forall k :: nt + na <= k < |ev| ==> ev[k] == Closed)
  {
    var typing: seq<Event> := if "agentIsTyping" in f then [AgentIsTyping(f["agentIsTyping"])] else [];
    var agent: seq<Event> := if "agentId" in f then [AgentId(f["agentId"])] else [];
    var closing: seq<Event> := if Truthy(Prop(f, "isClosed")) then [Closed] else [];
    assert DispatchedEvents(f) == typing + agent + closing;
  }

  /**
   * Presence-based dispatch of a chats push: agentIsTyping is emitted if and
   * only if its key is present, first, with the pushed value whatever it is.
   */
  lemma TypingDispatch(f: Fields)
    ensures var ev := DispatchedEvents(f);
      && ((exists k :: 0 <= k < |ev| && ev[k].AgentIsTyping?) <==> "agentIsTyping" in f)
      && (forall k :: 0 <= k < |ev| && ev[k].AgentIsTyping? ==> k == 0 && ev[k].agentIsTyping == f["agentIsTyping"])
  {
    DispatchedLayout(f);
    if "agentIsTyping" in f {
      assert DispatchedEvents(f)[0].AgentIsTyping?;
    }
  }

  /**
   * agentId is emitted if and only if its key is present, with the pushed
   * value, right after the typing event when there is one.
   */
  lemma AgentIdDispatch(f: Fields)
    ensures var ev := DispatchedEvents(f);
      && ((exists k :: 0 <= k < |ev| && ev[k].AgentId?) <==> "agentId" in f)
      && (forall k :: 0 <= k < |ev| && ev[k].AgentId? ==>
            ev[k].agentId == f["agentId"] && k == (if "agentIsTyping" in f then 1 else 0))
  {
    DispatchedLayout(f);
    if "agentId" in f {
      assert DispatchedEvents(f)[if "agentIsTyping" in f then 1 else 0].AgentId?;
    }
  }

  /** `closed` is emitted exactly when isClosed is truthy, after the field events. */
  lemma ClosedDispatch(f: Fields)
    ensures var ev := DispatchedEvents(f);
      && (Closed in ev <==> Truthy(Prop(f, "isClosed")))
      && (forall k :: 0 <= k < |ev| && ev[k] == Closed ==> k == |ev| - 1)
  {
    DispatchedLayout(f);
    var ev := DispatchedEvents(f);
    if Truthy(Prop(f, "isClosed")) {
      assert ev[|ev| - 1] == Closed;
    }
  }

  /**
   * A truthy isClosed closes the chat as close() does; otherwise a chats push
   * changes only the event log.
   */
  lemma ChatUpdatedClosing(s: ChatState, f: Fields)
    ensures var r := ChatUpdated(s, f);
      if Truthy(Prop(f, "isClosed")) then
        r.closed && r.expectedDisconnect && r.actions == s.actions + [Disconnect]
      else
        r == s.(events := r.events)
  {
  }

  /** Routing of `added`: chats to _chatUpdated, messages to one `message` event with the fields unchanged, others ignored. */
  lemma AddedRouting(s: ChatState, collection: string, f: Fields)
    ensures collection == "chats" ==> OnAdded(s, collection, f) == ChatUpdated(s, f)
    ensures collection == "messages" ==> OnAdded(s, collection, f) == s.(events := s.events + [Message(f)])
    ensures collection != "chats" && collection != "messages" ==> OnAdded(s, collection, f) == s
  {
  }

  /** Routing of `changed`: only chats is acted on; a changed message, like any other collection, is ignored. */
  lemma ChangedRouting(s: ChatState, collection: string, f: Fields)
    ensures collection == "chats" ==> OnChanged(s, collection, f) == ChatUpdated(s, f)
    ensures collection != "chats" ==> OnChanged(s, collection, f) == s
  {
  }

  /**
   * An unexpected disconnect closes the chat and emits exactly one error;
   * one that was expected changes nothing.
   */
  lemma DisconnectedOutcome(s: ChatState)
    ensures !s.expectedDisconnect ==>
              OnDisconnected(s) == s.(closed := true, events := s.events + [UnexpectedDisconnectError])
    ensures s.expectedDisconnect ==> OnDisconnected(s) == s
  {
  }

  /** close() records the disconnect only after setting the flag, so the disconnect it causes is silent. */
  lemma CloseSuppressesDisconnectError(s: ChatState)
    ensures Close(s).closed && Close(s).expectedDisconnect
    ensures Close(s).actions == s.actions + [Disconnect]
    ensures OnDisconnected(Close(s)) == Close(s)
  {
  }

  lemma NoNewUnexpectedError(s: ChatState, t: ChatState, ne: seq<Event>)
    requires t.events == s.events + ne
    requires forall k :: 0 <= k < |ne| ==> ne[k] != UnexpectedDisconnectError
    ensures forall k :: |s.events| <= k < |t.events| ==> t.events[k] != UnexpectedDisconnectError
  {
    forall k | |s.events| <= k < |t.events|
      ensures t.events[k] != UnexpectedDisconnectError
    {
      assert t.events[k] == ne[k - |s.events|];
    }
  }

  /** No transition out of an expected-disconnect state emits the unexpected-disconnection error. */
  lemma StepAfterClose(s: ChatState, i: Input)
    requires s.expectedDisconnect
    ensures Step(s, i).expectedDisconnect
    ensures forall k :: |s.events| <= k < |Step(s, i).events| ==> Step(s, i).events[k] != UnexpectedDisconnectError
  {
    var t := Step(s, i);
    StepAppends(s, i);
    match i {
      case Added(c, f) =>
        if c == "chats" {
          ChatUpdatedEvents(s, f);
          NoNewUnexpectedError(s, t, DispatchedEvents(f));
        } else if c == "messages" {
          NoNewUnexpectedError(s, t, [Message(f)]);
        }
      case Changed(c, f) =>
        if c == "chats" {
          ChatUpdatedEvents(s, f);
          NoNewUnexpectedError(s, t, DispatchedEvents(f));
        }
      case CreateFailed(err) =>
        NoNewUnexpectedError(s, t, [Error(RemoteError(err))]);
      case SubscriptionReady =>
        NoNewUnexpectedError(s, t, [Ready]);
      case SubscriptionFailed(err) =>
        NoNewUnexpectedError(s, t, [Error(RemoteError(err))]);
      case _ =>
        assert t.events == s.events;
    }
  }

  /**
   * Once close() has run (whether called by the application or after a
   * failure or a server-side closure), nothing that happens afterwards, in
   * whatever order, produces the unexpected-disconnection error.
   */
  lemma {:induction false} NoUnexpectedErrorAfterClose(s: ChatState, inputs: seq<Input>)
    requires s.expectedDisconnect
    ensures |s.events| <= |Run(s, inputs).events|
    ensures forall k :: |s.events| <= k < |Run(s, inputs).events| ==> Run(s, inputs).events[k] != UnexpectedDisconnectError
    decreases |inputs|
  {
    if inputs != [] {
      var t := Step(s, inputs[0]);
      StepAfterClose(s, inputs[0]);
      StepAppends(s, inputs[0]);
      NoUnexpectedErrorAfterClose(t, inputs[1..]);
      RunAppends(t, inputs[1..]);
      var r := Run(t, inputs[1..]);
      forall k | |s.events| <= k < |r.events|
        ensures r.events[k] != UnexpectedDisconnectError
      {
        if k < |t.events| {
          assert r.events[k] == r.events[..|t.events|][k] == t.events[k];
        }
      }
    }
  }

  /**
   * The guards of sendMessage and setUserIsTyping: "not created yet" when
   * the chat id is null or undefined, checked before "already closed"; only
   * when both pass is the call recorded, with the chat id and the argument.
   */
  lemma GuardOrder(s: ChatState, name: string, arg: JsValue)
    ensures IsNullish(s.chatId) ==> Guarded(s, name, arg) == (s, Rejected(NotCreatedYet))
    ensures !IsNullish(s.chatId) && s.closed ==> Guarded(s, name, arg) == (s, Rejected(AlreadyClosed))
    ensures Guarded(s, name, arg).1.Forwarded? <==> !IsNullish(s.chatId) && !s.closed
    ensures Guarded(s, name, arg).1.Forwarded? ==>
              Guarded(s, name, arg).0 == s.(actions := s.actions + [Call(name, [s.chatId, arg])])
  {
  }

  lemma SendMessageGuards(s: ChatState, message: JsValue)
    ensures SendMessage(s, message).1.Forwarded? <==> !IsNullish(s.chatId) && !s.closed
    ensures IsNullish(s.chatId) ==> SendMessage(s, message).1 == Rejected(NotCreatedYet)
    ensures !IsNullish(s.chatId) && s.closed ==> SendMessage(s, message).1 == Rejected(AlreadyClosed)
    ensures SendMessage(s, message).1.Rejected? ==> SendMessage(s, message).0 == s
    ensures SendMessage(s, message).1.Forwarded? ==>
              SendMessage(s, message).0.actions == s.actions + [Call("postMessageAsUser", [s.chatId, message])]
  {
  }

  lemma SetUserIsTypingGuards(s: ChatState, userIsTyping: JsValue)
    ensures SetUserIsTyping(s, userIsTyping).1.Forwarded? <==> !IsNullish(s.chatId) && !s.closed
    ensures IsNullish(s.chatId) ==> SetUserIsTyping(s, userIsTyping).1 == Rejected(NotCreatedYet)
    ensures !IsNullish(s.chatId) && s.closed ==> SetUserIsTyping(s, userIsTyping).1 == Rejected(AlreadyClosed)
    ensures SetUserIsTyping(s, userIsTyping).1.Rejected? ==> SetUserIsTyping(s, userIsTyping).0 == s
    ensures SetUserIsTyping(s, userIsTyping).1.Forwarded? ==>
              SetUserIsTyping(s, userIsTyping).0.actions == s.actions + [Call("setUserIsTyping", [s.chatId, userIsTyping])]
  {
  }

  /** Without a Created input the chat id stays what it was. */
  lemma {:induction false} UncreatedStaysUncreated(s: ChatState, inputs: seq<Input>)
    requires forall k :: 0 <= k < |inputs| ==> !inputs[k].Created?
    ensures Run(s, inputs).chatId == s.chatId
    decreases |inputs|
  {
    if inputs != [] {
      UncreatedStaysUncreated(Step(s, inputs[0]), inputs[1..]);
    }
  }

  /**
   * A creation failure emits the error and closes the chat but leaves the id
   * unset; whatever follows short of a creation success, a later send or
   * typing update is refused as "not created yet", not as "already closed".
   */
  lemma {:induction false} CreateFailureThenSend(o: Options, err: JsValue, inputs: seq<Input>, message: JsValue)
    requires forall k :: 0 <= k < |inputs| ==> !inputs[k].Created?
    ensures OnCreateFailed(Initial(o), err).events == [Error(RemoteError(err))]
    ensures OnCreateFailed(Initial(o), err).closed
    ensures SendMessage(Run(OnCreateFailed(Initial(o), err), inputs), message).1 == Rejected(NotCreatedYet)
    ensures SetUserIsTyping(Run(OnCreateFailed(Initial(o), err), inputs), message).1 == Rejected(NotCreatedYet)
  {
    UncreatedStaysUncreated(OnCreateFailed(Initial(o), err), inputs);
  }

  /** Once closed, by whatever path, every later send or typing update is refused and records nothing. */
  lemma {:induction false} ClosedRefusesSends(s: ChatState, inputs: seq<Input>, arg: JsValue)
    requires s.closed
    ensures SendMessage(Run(s, inputs), arg).1.Rejected?
    ensures SetUserIsTyping(Run(s, inputs), arg).1.Rejected?
    ensures SendMessage(Run(s, inputs), arg).0 == Run(s, inputs)
    ensures SetUserIsTyping(Run(s, inputs), arg).0 == Run(s, inputs)
  {
    RunAppends(s, inputs);
    SendMessageGuards(Run(s, inputs), arg);
    SetUserIsTypingGuards(Run(s, inputs), arg);
  }

  /**
   * A whole session: created as "abc", subscribed, an agent assigned, then
   * closed by the server; the disconnect that close() causes is silent.
   */
  lemma AgentThenServerCloseScenario(o: Options)
    ensures var s := Run(Initial(o), [Created(Str("abc")), SubscriptionReady,
                                      Changed("chats", map["agentId" := Str("agent-7")]),
                                      Changed("chats", map["isClosed" := Bool(true)]),
                                      Disconnected]);
      && s.events == [Ready, AgentId(Str("agent-7")), Closed]
      && s.actions == [Call("createChat", CreateChatArgs(o)), Subscribe("userChat", [Str("abc")]), Disconnect]
      && s.closed && s.expectedDisconnect && s.chatId == Str("abc")
  {
  }
}
