# Touchpoint chat client: a Dafny model of the single-session protocol

The client lets an application open one live support chat with the Touchpoint
service. `index.js` turns a DDP (publish/subscribe plus remote call)
connection into chat semantics. The model covers its three parts:

- **The `Chat` state machine.** `ChatMachine` defines the chat's state as a
  value: the flags `closed` and `expectedDisconnect`, the `chatId`, the agent
  fields, an append-only log of emitted events (`ready`, `error`, `message`,
  `agentIsTyping`, `agentId`, `closed`) and an append-only log of transport
  actions (`call(name, args)`, `subscribe('userChat', id)`, `disconnect`). Each
  transport callback and each public operation is a transition function.
  `Step` and `Run` drive the machine over any sequence of inputs. The lemmas
  state the protocol's properties over whole runs: the guard order, dispatch on
  which keys are present, that `close()` silences the disconnect it causes, and
  the invariant every reachable state keeps. `ChatSession.Chat` is the
  imperative object. Its fields are updated in place, it has one method per
  callback, and each method's new state is the matching `ChatMachine`
  transition of its old state.
- **Option handling** (`ChatOptions`). The options given are merged over the
  defaults with `Object.assign` semantics. `customerId` and `signedContext`
  are then validated, and an object-valued `unsignedContext` is serialised.
  This also fixes the argument tuple of the `createChat` call.
- **Availability and error shaping** (`Availability`, `TouchpointErrors`).
  The defaults of `isAvailable`, and how the request's outcome settles the
  promise: a request error, an error status turned into a `TouchpointError`
  built from the body, or the `available` value of the first channel named
  `"text"`.

JavaScript semantics the code relies on are explicit in `JsValues`: `typeof`
(with `typeof null === "object"`), truthiness (the empty string, `0` and `NaN`
are falsy), `== null`, `||` and property reads. Promises are results: a
rejected promise or a synchronous throw is a `Failure`, and `SendOutcome`
tells a rejection apart from handing back the remote call's promise.
`JSON.stringify` is the parameter `serialize`. I/O is absent: the transport
appears only as the recorded actions and as the callback methods.

`customerId` is only checked with `typeof` (index.js:34), so the empty string
is accepted. The chat id is whatever value the createChat call resolved with
(index.js:94-95), and both guards test it with `== null` (index.js:125, 135).
That guard comes before the closed guard (index.js:125-130), so a send on a
chat that was never created reports "not created yet" even after the chat was
closed. `Object.assign` copies an option given explicitly as `undefined` over
its default (index.js:24-32).

## Model

| member | source | states |
|---|---|---|
| TouchpointErrors.FromBody | index.js:11-19 | A null or undefined body gives message "Unknown error" and sets neither reason nor errorCode. Otherwise message and errorCode are the body's message and error, and reason is the body's reason when truthy, else the message. |
| ChatOptions.Normalise | index.js:24-44 | Fails exactly when customerId is not a string or signedContext is present and not a string, with the customerId message taking precedence. On success each option is the given value when its key is present, else its default, and unsignedContext is serialised when its typeof is "object". |
| ChatOptions.DefaultsFillMissing | index.js:24-40 | With only customerId given: topic "<no topic>", team "default", null signed context and signature, the default url and proxy, and unsignedContext sent as the string "null". |
| ChatOptions.ExplicitUndefinedIsKept | index.js:24-44 | Any of the seven defaulted options (topic, team, signedContext, signature, unsignedContext, url, proxy) given as undefined is copied over its default, not replaced by it, and survives validation and the unsignedContext rewrite as undefined. |
| ChatOptions.CreateChatArgs | index.js:92-93 | The createChat arguments in wire order, channel "text"; ChatMachine.InitialState and ChatMachine.CreateChatCallFromOptions state them in terms of the options and the given values. |
| ChatMachine.Initial | index.js:46-48 | The state after construction; ChatMachine.InitialState states it: open, no chat id, no events, only the createChat call. |
| ChatMachine.Close | index.js:144-148 | close(); ChatMachine.CloseSuppressesDisconnectError states it: both flags set, a disconnect recorded, the later disconnected callback silent. |
| ChatMachine.ChatUpdated | index.js:109-122 | _chatUpdated; ChatMachine.ChatUpdatedEvents and ChatMachine.ChatUpdatedClosing state it: the dispatched events are appended, and a disconnect only when isClosed is truthy. |
| ChatMachine.DispatchedEvents | index.js:109-121 | The events _chatUpdated emits for a push; ChatMachine.DispatchedLayout, TypingDispatch, AgentIdDispatch and ClosedDispatch state their order and presence. |
| ChatMachine.OnAdded | index.js:79-85 | The added callback; ChatMachine.AddedRouting states its routing by collection. |
| ChatMachine.OnChanged | index.js:86-90 | The changed callback; ChatMachine.ChangedRouting states that only chats are acted on. |
| ChatMachine.OnDisconnected | index.js:72-77 | The disconnected callback; ChatMachine.DisconnectedOutcome states that only an unexpected disconnect closes and emits one error. |
| ChatMachine.Guarded | index.js:124-142 | The shared guards; ChatMachine.GuardOrder states their order and that a rejection changes nothing. |
| ChatMachine.Emit | index.js:96-119 | One `this.emit(...)`: appends the event; ChatMachine.EmitPreservesInv states that any event but the unexpected-disconnection error keeps the invariant. |
| ChatMachine.OnCreated | index.js:94-96 | The createChat call resolved: sets the chat id and subscribes to userChat; ChatMachine.UncreatedStaysUncreated states that only this input sets the chat id. |
| ChatMachine.OnCreateFailed | index.js:103-106 | The createChat call rejected: emits the error, then close(); ChatMachine.CreateFailureThenSend states its outcome and the sends after it. |
| ChatMachine.OnSubscriptionReady | index.js:96-97 | Emits ready; ChatMachine.StepPreservesInv and ChatMachine.EmitPreservesInv state that it keeps the invariant. |
| ChatMachine.OnSubscriptionError | index.js:98-101 | Emits the error, then close(); ChatMachine.StepPreservesInv states that it keeps the invariant. |
| ChatMachine.SendMessage | index.js:124-132 | sendMessage; ChatMachine.SendMessageGuards states when it forwards postMessageAsUser and with which rejection it refuses. |
| ChatMachine.SetUserIsTyping | index.js:134-142 | setUserIsTyping; ChatMachine.SetUserIsTypingGuards states when it forwards setUserIsTyping and with which rejection it refuses. |
| ChatMachine.InitialState | index.js:46-48 | A constructed chat is open, has no chat id, no events, and one action: createChat(customerId, topic, team, "text", signedContext, signature, unsignedContext); the invariant holds. |
| ChatMachine.CreateChatCallFromOptions | index.js:92-93 | For options that validate, the createChat call carries the given options or their defaults, in wire order. |
| ChatMachine.InvAfterAppend | index.js:71-148 | The invariant survives any transition that appends to the logs and sets the flags consistently with what it appended. |
| ChatMachine.EmitPreservesInv | index.js:96-119 | Emitting any event other than the unexpected-disconnection error keeps the invariant. |
| ChatMachine.StepPreservesInv | index.js:71-148 | Every callback and operation keeps the invariant: the expected flag is set iff a disconnect was issued, and then the chat is closed; a closed chat was closed by close() or hit an unexpected disconnect; agent fields never change. |
| ChatMachine.RunPreservesInv | index.js:71-148 | The invariant holds after any sequence of inputs. |
| ChatMachine.StepAppends | index.js:71-148 | One transition only appends to the event and action logs and never clears closed or expectedDisconnect. |
| ChatMachine.RunAppends | index.js:71-148 | Over any run both logs are append-only and closed and expectedDisconnect are never cleared. |
| ChatMachine.ChatUpdatedEvents | index.js:109-122 | _chatUpdated appends exactly its dispatched events, adds a disconnect only when isClosed is truthy, and leaves the chat id and agent fields alone. |
| ChatMachine.ChatUpdatedPreservesInv | index.js:109-122 | _chatUpdated keeps the invariant. |
| ChatMachine.DispatchedLayout | index.js:109-121 | The dispatched events are the typing event (if the key is present), then the agent event (if present), then closed (if isClosed is truthy). |
| ChatMachine.TypingDispatch | index.js:110-112 | agentIsTyping is emitted iff the key is present, first, carrying the pushed value whatever it is. |
| ChatMachine.AgentIdDispatch | index.js:114-116 | agentId is emitted iff the key is present, carrying the pushed value, right after the typing event when one was emitted. |
| ChatMachine.ClosedDispatch | index.js:118-121 | closed is emitted iff isClosed is truthy, after the field events. |
| ChatMachine.ChatUpdatedClosing | index.js:118-121 | A truthy isClosed leaves the chat closed with the expected flag set and a disconnect recorded; otherwise only the event log changes. |
| ChatMachine.AddedRouting | index.js:79-85 | added on chats goes to _chatUpdated, on messages emits one message event with the fields unchanged, and on any other collection changes nothing. |
| ChatMachine.ChangedRouting | index.js:86-90 | changed is acted on only for chats; messages and any other collection change nothing. |
| ChatMachine.DisconnectedOutcome | index.js:72-77 | An unexpected disconnect sets closed and appends exactly one error; an expected one changes nothing. |
| ChatMachine.CloseSuppressesDisconnectError | index.js:144-148 | close() sets both flags and records a disconnect, and the disconnected callback after it changes nothing. |
| ChatMachine.NoNewUnexpectedError | index.js:72-77 | Appending events none of which is the unexpected-disconnection error adds no such error to the log. |
| ChatMachine.StepAfterClose | index.js:72-77 | After close() no transition clears the expected flag or emits the unexpected-disconnection error. |
| ChatMachine.NoUnexpectedErrorAfterClose | index.js:72-77 | Once close() has run, no sequence of later inputs produces the unexpected-disconnection error. |
| ChatMachine.GuardOrder | index.js:124-142 | A null or undefined chat id rejects with "not created yet" before closed is checked; a closed chat rejects with "already closed"; only when both pass is the call recorded, carrying the chat id and the argument; a rejection changes nothing. |
| ChatMachine.SendMessageGuards | index.js:124-132 | sendMessage forwards iff the chat id is set and the chat is open, recording postMessageAsUser(chatId, message); otherwise it rejects with the reason of the first failing guard. |
| ChatMachine.SetUserIsTypingGuards | index.js:134-142 | setUserIsTyping forwards iff the chat id is set and the chat is open, recording setUserIsTyping(chatId, flag); otherwise it rejects with the reason of the first failing guard. |
| ChatMachine.UncreatedStaysUncreated | index.js:94-95 | Only a creation success sets the chat id. |
| ChatMachine.CreateFailureThenSend | index.js:103-106 | A creation failure emits only the error and closes. After it, short of a creation success, sends and typing updates reject with "not created yet", not "already closed". |
| ChatMachine.ClosedRefusesSends | index.js:124-142 | Once closed, after any further inputs, every send and typing update is rejected and leaves the state, logs included, unchanged. |
| ChatMachine.AgentThenServerCloseScenario | index.js:79-121 | Created as "abc", ready, an agentId push, then an isClosed push and the disconnect: events are ready, agentId, closed; actions are createChat, subscribe, disconnect. |
| ChatSession.Chat.constructor | index.js:46-93 | The object starts in ChatMachine.Initial of its options, with the invariant. |
| ChatSession.Chat.Emit | index.js:97-119 | Appends the event to the event log and changes nothing else, as ChatMachine.Emit. |
| ChatSession.Chat.Guarded | index.js:124-142 | The shared guards of sendMessage and setUserIsTyping: outcome and new state are those of ChatMachine.Guarded. |
| ChatSession.Chat.OnCreated | index.js:94-96 | The chat id is set and the userChat subscription recorded, as ChatMachine.OnCreated. |
| ChatSession.Chat.OnCreateFailed | index.js:103-106 | Emits the error then closes, as ChatMachine.OnCreateFailed; the invariant is kept. |
| ChatSession.Chat.OnSubscriptionReady | index.js:96-97 | Emits ready. |
| ChatSession.Chat.OnSubscriptionError | index.js:98-101 | Emits the error then closes, as ChatMachine.OnSubscriptionError. |
| ChatSession.Chat.ChatUpdated | index.js:109-122 | New state is ChatMachine.ChatUpdated of the old one. |
| ChatSession.Chat.OnAdded | index.js:79-85 | New state is ChatMachine.OnAdded of the old one. |
| ChatSession.Chat.OnChanged | index.js:86-90 | New state is ChatMachine.OnChanged of the old one. |
| ChatSession.Chat.OnDisconnected | index.js:72-77 | New state is ChatMachine.OnDisconnected of the old one. |
| ChatSession.Chat.SendMessage | index.js:124-132 | The outcome and new state are those of ChatMachine.SendMessage. |
| ChatSession.Chat.SetUserIsTyping | index.js:134-142 | The outcome and new state are those of ChatMachine.SetUserIsTyping. |
| ChatSession.Chat.Close | index.js:144-148 | New state is ChatMachine.Close of the old one. |
| ChatSession.CreateChat | index.js:152-153 | Fails, with the validation message, exactly when the options do not validate, and then no chat and no remote call exist. Otherwise it returns a fresh chat in the initial state of the normalised options. |
| Availability.ResolveTarget | index.js:155-162 | url and team are replaced by their defaults exactly when they are null or undefined; neither is null afterwards. |
| Availability.Settle | index.js:169-185 | A request error rejects with it. A status of 300 or more rejects with the TouchpointError of the body. Otherwise the promise resolves to the available value of the first channel named "text", or to false when no channel is. |
| Availability.NullAfterTextChannelSettles | index.js:178-182 | An example input: an array body whose text channel is followed by null is accepted, since the loop returns before reading the null; Settle then resolves to that channel's available. |
| Availability.StringBodyIsUnavailable | index.js:178-184 | A string body has no channel named "text", so it resolves to false. |

## Left out

- Socket construction, the proxy agent and the Asteroid/DDP client set-up (index.js:50-69): network plumbing in foreign libraries. The transport is only the recorded actions and the callback methods.
- Issuing the HTTP request and building its URI with `encodeURIComponent` (index.js:164-169): I/O and library code. `Settle` takes the request's outcome as its input.
- `JSON.stringify`: it is the parameter `serialize`, so the serialised text itself is not modelled. `DefaultsFillMissing` assumes that null serialises to `"null"`.
- Promise and EventEmitter mechanics. Callbacks are synchronous method calls and `emit` appends to the event log. That `emit('error')` with no listener throws in Node is not modelled, and neither is when a forwarded remote call's promise settles.
- The order and frequency the transport delivers callbacks in. Every input may arrive at any time, any number of times, for example a second creation success. No claim depends on the transport being better behaved, except the stated hypothesis "no creation success" of ChatMachine.CreateFailureThenSend and ChatMachine.UncreatedStaysUncreated.
- A push whose `fields` are missing: `_chatUpdated` would throw on reading a property of undefined. Fields are always an object here.
- TouchpointErrors.FromBody: `message` is the value passed to Error's constructor. The string conversion Error applies to it is not modelled.
- Availability.Settle: a success body that cannot be iterated, or an array with a null or undefined element reached before the first text channel, makes the callback throw a TypeError. `Settles` excludes these inputs instead of modelling the throw.
- JsValues: Symbol and BigInt values, infinities, the sign of zero, prototype properties and object identity are not represented. Property reads are exact only for the names the client reads.
