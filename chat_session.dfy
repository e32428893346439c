/**
 * The Chat object of index.js:21-149: its flags are fields updated in place,
 * the events it emits and the transport actions it issues are append-only
 * logs. Every transport callback and public operation is one method, whose
 * new state is the corresponding ChatMachine transition of the old one.
 */
module ChatSession {
  import opened Wrappers
  import opened JsValues
  import opened ChatOptions
  import CM = ChatMachine

  class Chat {
    var closed: bool
    var expectedDisconnect: bool
    var chatId: JsValue
    var agentIsTyping: bool
    var agentId: JsValue
    var events: seq<CM.Event>
    var actions: seq<CM.Action>
    const options: Options

    ghost function State(): CM.ChatState
      reads this
    {
      CM.ChatState(closed, expectedDisconnect, chatId, agentIsTyping, agentId, events, actions)
    }

    ghost predicate Valid()
      reads this
    {
      CM.Inv(State())
    }

    /** The constructor after validation: set the flags and issue the createChat call. */
    constructor (o: Options)
      ensures Valid() && options == o
      ensures State() == CM.Initial(o)
    {
      options := o;
      closed := false;
      agentIsTyping := false;
      agentId := Null;
      expectedDisconnect := false;
      chatId := Undefined;
      events := [];
      actions := [CM.Call("createChat", CreateChatArgs(o))];
      new;
      CM.InitialState(o);
    }

    /**
     * `this.emit(...)`: an internal step of the callbacks, not an operation of
     * its own. It does not by itself keep Valid(): OnDisconnected emits the
     * unexpected-disconnection error only after setting closed, and every
     * other caller establishes the invariant of the result with
     * ChatMachine.EmitPreservesInv or ChatMachine.StepPreservesInv first.
     */
    method Emit(e: CM.Event)
      modifies this
      ensures State() == CM.Emit(old(State()), e)
    {
      events := events + [e];
    }

    /** The createChat call resolved with id. */
    method OnCreated(id: JsValue)
      requires Valid()
      modifies this
      ensures Valid() && State() == CM.OnCreated(old(State()), id)
    {
      CM.StepPreservesInv(State(), CM.Created(id));
      chatId := id;
      actions := actions + [CM.Subscribe("userChat", [id])];
    }

    /** The createChat call rejected with err. */
    method OnCreateFailed(err: JsValue)
      requires Valid()
      modifies this
      ensures Valid() && State() == CM.OnCreateFailed(old(State()), err)
    {
      CM.EmitPreservesInv(State(), CM.Error(CM.RemoteError(err)));
      Emit(CM.Error(CM.RemoteError(err)));
      Close();
    }

    method OnSubscriptionReady()
      requires Valid()
      modifies this
      ensures Valid() && State() == CM.OnSubscriptionReady(old(State()))
    {
      CM.StepPreservesInv(State(), CM.SubscriptionReady);
      Emit(CM.Ready);
    }

    method OnSubscriptionError(err: JsValue)
      requires Valid()
      modifies this
      ensures Valid() && State() == CM.OnSubscriptionError(old(State()), err)
    {
      CM.EmitPreservesInv(State(), CM.Error(CM.RemoteError(err)));
      Emit(CM.Error(CM.RemoteError(err)));
      Close();
    }

    /** _chatUpdated(fields). */
    method ChatUpdated(f: Fields)
      requires Valid()
      modifies this
      ensures Valid() && State() == CM.ChatUpdated(old(State()), f)
    {
      if "agentIsTyping" in f {
        CM.EmitPreservesInv(State(), CM.AgentIsTyping(f["agentIsTyping"]));
        Emit(CM.AgentIsTyping(f["agentIsTyping"]));
      }
      if "agentId" in f {
        CM.EmitPreservesInv(State(), CM.AgentId(f["agentId"]));
        Emit(CM.AgentId(f["agentId"]));
      }
      if Truthy(Prop(f, "isClosed")) {
        CM.EmitPreservesInv(State(), CM.Closed);
        Emit(CM.Closed);
        Close();
      }
    }

    /** The transport's `added` event. */
    method OnAdded(collection: string, f: Fields)
      requires Valid()
      modifies this
      ensures Valid() && State() == CM.OnAdded(old(State()), collection, f)
    {
      CM.StepPreservesInv(State(), CM.Added(collection, f));
      if collection == "chats" {
        ChatUpdated(f);
      } else if collection == "messages" {
        Emit(CM.Message(f));
      }
    }

    /** The transport's `changed` event. */
    method OnChanged(collection: string, f: Fields)
      requires Valid()
      modifies this
      ensures Valid() && State() == CM.OnChanged(old(State()), collection, f)
    {
      if collection == "chats" {
        ChatUpdated(f);
      }
    }

    /** The transport's `disconnected` event. */
    method OnDisconnected()
      requires Valid()
      modifies this
      ensures Valid() && State() == CM.OnDisconnected(old(State()))
    {
      CM.StepPreservesInv(State(), CM.Disconnected);
      if !expectedDisconnect {
        closed := true;
        Emit(CM.UnexpectedDisconnectError);
      }
    }

    method SendMessage(message: JsValue) returns (r: CM.SendOutcome)
      requires Valid()
      modifies this
      ensures Valid() && (State(), r) == CM.SendMessage(old(State()), message)
    {
      CM.StepPreservesInv(State(), CM.SendMessageCalled(message));
      r := Guarded("postMessageAsUser", message);
    }

    method SetUserIsTyping(userIsTyping: JsValue) returns (r: CM.SendOutcome)
      requires Valid()
      modifies this
      ensures Valid() && (State(), r) == CM.SetUserIsTyping(old(State()), userIsTyping)
    {
      CM.StepPreservesInv(State(), CM.SetUserIsTypingCalled(userIsTyping));
      r := Guarded("setUserIsTyping", userIsTyping);
    }

    /**
     * The two guards of sendMessage and setUserIsTyping, then the remote call:
     * an internal step of those two methods, which establish Valid() of the
     * result with ChatMachine.StepPreservesInv before calling it.
     */
    method Guarded(name: string, arg: JsValue) returns (r: CM.SendOutcome)
      modifies this
      ensures (State(), r) == CM.Guarded(old(State()), name, arg)
    {
      if IsNullish(chatId) {
        r := CM.Rejected(CM.NotCreatedYet);
      } else if closed {
        r := CM.Rejected(CM.AlreadyClosed);
      } else {
        actions := actions + [CM.Call(name, [chatId, arg])];
        r := CM.Forwarded;
      }
    }

    /** close(): set the flag first, then close and sever the connection. */
    method Close()
      requires Valid()
      modifies this
      ensures Valid() && State() == CM.Close(old(State()))
    {
      CM.StepPreservesInv(State(), CM.CloseCalled);
      expectedDisconnect := true;
      closed := true;
      actions := actions + [CM.Disconnect];
    }
  }

  /**
   * `createChat(options)`: normalise the options and construct the chat, or
   * fail synchronously with the validation message, before any Chat, and so
   * any remote call, exists.
   */
  method CreateChat(given: Fields, serialize: JsValue -> string) returns (r: Result<Chat, string>)
    ensures r.Failure? <==> Normalise(given, serialize).Failure?
    ensures r.Failure? ==> r.error == Normalise(given, serialize).error
    ensures r.Success? ==>
              && fresh(r.value) && r.value.Valid()
              && r.value.options == Normalise(given, serialize).value
              && r.value.State() == CM.Initial(Normalise(given, serialize).value)
  {
    var n := Normalise(given, serialize);
    if n.Failure? {
      r := Failure(n.error);
    } else {
      var chat := new Chat(n.value);
      r := Success(chat);
    }
  }
}
