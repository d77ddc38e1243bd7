# Chat store model

A Dafny model of the client-side chat store of SayHi (`frontend/src/store/useChatStore.js`). The store holds:

- the message timeline (`messages`);
- the roster (`users`) and the selected user (`selectedUser`);
- the two loading flags (`isUsersLoading`, `isMessagesLoading`).

It talks to two transports:

- a request/response channel, used to fetch the roster, fetch history and send a message;
- a push channel. On it the store registers `"newMessage"` handlers and emits `"sendMessage"` events.

The model is the class `Chat.ChatStore` (file `chat_store.dfy`). Its fields are the store's fields plus two more. `handlers` is the push channel's handler registry: one entry per registration, holding the user id the handler captured. `emitted` is the log of outbound `"sendMessage"` events. Each `async` operation is split at its `await` into two methods:

- a `Start…` method, for the part before the request;
- a `Complete…` method. It takes the settled request as `Ok(body)` or `Err(error)`.

Other operations may run between the two halves. This is how the model shows that `sendMessage` writes back the timeline it read when it started.

The pure parts are functions in `chat_types.dfy` and `chat_store.dfy`:

- the error text `error.response?.data?.message || fallback`;
- the report of a failed roster fetch;
- one handler's body, including its sender filter (`Handle`);
- the effect of running every registered handler on one inbound message (`ApplyHandlers`).

The lemmas give the closed form of a delivery: the message is appended once per handler that captured its sender. They also prove the iff that a delivery changes nothing exactly when no handler captured the sender, and that stacked subscriptions duplicate deliveries. `chat_scenarios.dfy` holds complete runs of the store, proved from the method contracts alone.

The code as written has these behaviours, and the model keeps them:

- A handler compares the sender with the user selected when it was **subscribed** (lines 64 and 79), not with the current selection. See `HandlerKeepsCapturedUser`.
- Subscribing twice registers two handlers, so each message lands twice (line 69). Subscription is not idempotent. See `StackedSubscriptionsDuplicate` and `DoubleSubscribeDuplicates`.
- `unsubscribeFromMessages` removes every `"newMessage"` handler (line 90).
- A failed roster fetch reads `error.response.data.message` without optional chaining (line 19). With no response, or no body, the `catch` block itself throws. The operation then rejects after clearing the flag, and no generic fallback is shown (`Report.Thrown`). With a body that has no `message`, the toast is called with `undefined` (`Toast(None)`).
- `sendMessage` with no selected user throws a `TypeError` inside `try` (line 44). The `TypeError` has no `response`, so the toast shows `"Error sending message"`. Nothing is posted.
- The success path of `sendMessage` writes `[...messages, res.data]`, where `messages` was read at line 38 before the `await`. A message pushed in between is therefore dropped. See `SendOverwritesPushedMessage`.

## Model

| member | source | states |
|---|---|---|
| `ChatTypes.ServerMessage` | frontend/src/store/useChatStore.js:59 | `error.response?.data?.message` (also line 31): absent exactly when the response, its body or the body's `message` is missing, otherwise the body's `message` |
| `ChatTypes.ToastText` | frontend/src/store/useChatStore.js:31 | the error text is never empty; it is the fallback or the server's message, and it is the server's message whenever that is a non-empty string (the `?.`/`||` chain never throws); the same rule gives the send toast at line 59, including the no-selection `TypeError` of `StartSendMessage` |
| `ChatTypes.UsersFailureReport` | frontend/src/store/useChatStore.js:18-19 | a failed roster fetch always reports something; it throws exactly when the error has no response or no body, and otherwise toasts the body's `message` (possibly `undefined`) |
| `Chat.Handle` | frontend/src/store/useChatStore.js:77-84 | one handler appends at most one message and keeps the timeline as a prefix; it appends exactly when the sender equals the id captured at registration (the filter at lines 78-80), and what it appends is the inbound message |
| `Chat.ApplyHandlers` | frontend/src/store/useChatStore.js:69-85 | running the handlers on an inbound message only appends: the old timeline stays a prefix |
| `Chat.CountMatches` | frontend/src/store/useChatStore.js:78-80 | the number of handlers that accept a sender is at most the number of handlers, and is zero exactly when no handler captured that sender |
| `Chat.CountMatchesIsMultiplicity` | frontend/src/store/useChatStore.js:78-80 | the number of accepting handlers equals the multiplicity of the sender in the registry, independently of registration order |
| `Chat.ApplyHandlersAppendsCopies` | frontend/src/store/useChatStore.js:69-85 | a delivery appends the inbound message once per handler that captured its sender, and changes nothing else |
| `Chat.DeliveryFiltersBySender` | frontend/src/store/useChatStore.js:77-80 | a delivery leaves the timeline unchanged if and only if no registered handler captured the message's sender |
| `Chat.CountMatchesConcat` | frontend/src/store/useChatStore.js:69 | the matching handlers of two successive groups of registrations add up |
| `Chat.CountMatchesRepeat` | frontend/src/store/useChatStore.js:69 | `k` registrations capturing `u` give `k` matches for `u` |
| `Chat.StackedSubscriptionsDuplicate` | frontend/src/store/useChatStore.js:63-69 | `k` more subscriptions for the same user make each later message from that user land `k` more times |
| `Chat.ChatStore.constructor` | frontend/src/store/useChatStore.js:7-11 | initial state: empty timeline and roster, no selection, both flags false, no handlers, nothing emitted |
| `Chat.ChatStore.StartGetUsers` | frontend/src/store/useChatStore.js:13-14 | the roster flag is raised before the fetch; nothing else changes |
| `Chat.ChatStore.CompleteGetUsers` | frontend/src/store/useChatStore.js:15-22 | the roster flag is cleared on success and failure; on success the roster is the fetched one, on failure it is kept and the failure reported by `UsersFailureReport`; nothing else changes |
| `Chat.ChatStore.StartGetMessages` | frontend/src/store/useChatStore.js:25-26 | the history flag is raised before the fetch; nothing else changes |
| `Chat.ChatStore.CompleteGetMessages` | frontend/src/store/useChatStore.js:27-34 | the history flag is cleared on success and failure; on success the timeline is exactly the fetched sequence (full overwrite), on failure it is kept and the toast shows the server's message or "Error fetching messages"; roster, selection, handlers unchanged |
| `Chat.ChatStore.StartSendMessage` | frontend/src/store/useChatStore.js:37-46 | with a selection, the request goes to the selected user's id with the draft and send time, and the timeline is snapshotted; without one, nothing is posted and the toast shows "Error sending message" |
| `Chat.ChatStore.CompleteSendMessage` | frontend/src/store/useChatStore.js:47-60 | on success the timeline is the start-time snapshot plus the server's message, and exactly one event is emitted, that message with `sentAt` set to the send time, while the timeline already ends with it; on failure nothing changes, nothing is emitted, and the toast shows the server's message or "Error sending message" |
| `Chat.ChatStore.SubscribeToMessages` | frontend/src/store/useChatStore.js:63-69 | no-op without a selection; otherwise exactly one more handler, capturing the selected user's id, after the existing ones |
| `Chat.ChatStore.UnsubscribeFromMessages` | frontend/src/store/useChatStore.js:88-91 | every handler is removed; nothing else changes |
| `Chat.ChatStore.SetSelectedUser` | frontend/src/store/useChatStore.js:93 | only the selection changes |
| `Chat.ChatStore.ReceiveNewMessage` | frontend/src/store/useChatStore.js:69-85 | the timeline becomes the old timeline plus one copy of the message per handler that captured its sender, and nothing else changes |
| `ChatScenarios.SendAfterHistory` | frontend/src/store/useChatStore.js:25-53 | history load then a successful send: timeline is the history plus the server's message, one emitted event carrying the send time, loading flag false |
| `ChatScenarios.SendOverwritesPushedMessage` | frontend/src/store/useChatStore.js:38-49 | a message pushed while a send is in flight is appended and then lost when the send completes |
| `ChatScenarios.HandlerKeepsCapturedUser` | frontend/src/store/useChatStore.js:64-80 | after the selection changes without re-subscribing, messages from the new selection are dropped and those from the captured user are kept |
| `ChatScenarios.DoubleSubscribeDuplicates` | frontend/src/store/useChatStore.js:63-85 | two subscribes deliver one inbound message twice |
| `ChatScenarios.UnsubscribeSilencesPush` | frontend/src/store/useChatStore.js:88-91 | after unsubscribing, an inbound message leaves the timeline unchanged |
| `ChatScenarios.RosterFailureWithoutResponse` | frontend/src/store/useChatStore.js:13-22 | a roster failure without a response keeps the roster and clears the flag, but rejects instead of toasting |

## Left out

- The HTTP client and URL construction: each response is an input `Result`. For the same reason `StartGetMessages` takes no user id; the id only chooses the URL.
- The socket connection and the auth store that owns it. The model assumes a connected socket. On a missing socket, `socket.on` (line 69) and `socket.off` (line 90) would throw, and `socket.emit` (line 53) would throw after the timeline write and raise a send toast; the model does not cover these.
- `handlers` holds only this store's registrations. `socket.off("newMessage")` would also remove handlers that other code registered, and these are not modelled.
- Latency logging (`console.log`) and `Date.now()`: they do not affect state. The send time is an input of `StartSendMessage`.
- Toast presentation: the text passed to `toast.error` is returned as a `Report`.
- zustand's `create`/`set`/`get` and store subscribers: modelled as direct field updates.
- Scheduling beyond the Start/Complete split: the caller chooses the interleaving.
- JavaScript values of other types in `message` or `senderId`: both are modelled as strings, and only strict equality and string falsiness are modelled.
