/** Runs of the chat store, each proved from the store's contracts alone: typical
    flows, and the behaviours the code has as written (a send that
    overwrites a message pushed while it was in flight, handlers that filter
    by the user captured at subscription, stacked subscriptions, a roster
    failure without a response). */
module ChatScenarios {
  import opened ChatTypes
  import opened Chat

  /** History load, then a successful send: the timeline is the history with
      the server's message appended, and exactly one event is emitted, the
      server's message carrying the recorded send time, after the timeline
      already ended with it. */
  method SendAfterHistory(peer: User, history: seq<Message>, draft: Draft, sentAt: int, echo: Message)
    returns (timeline: seq<Message>, events: seq<Emission>, loading: bool)
    ensures timeline == history + [echo]
    ensures events == [Emission(echo.(sentAt := Some(sentAt)), history + [echo])]
    ensures !loading
  {
    var store := new ChatStore();
    store.SetSelectedUser(Some(peer));
    store.StartGetMessages();
    var _ := store.CompleteGetMessages(Ok(history));
    var pending, _ := store.StartSendMessage(draft, sentAt);
    var _ := store.CompleteSendMessage(pending.value, Ok(echo));
    timeline, events, loading := store.messages, store.emitted, store.isMessagesLoading;
  }

  /** A message pushed by the selected user while a send is awaiting its
      response is appended, then lost: the send's success path writes back
      the timeline it read before the push arrived. */
  method SendOverwritesPushedMessage(peer: User, draft: Draft, sentAt: int, pushed: Message, echo: Message)
    returns (afterPush: seq<Message>, afterSend: seq<Message>)
    requires pushed.senderId == peer.id
    ensures afterPush == [pushed]
    ensures afterSend == [echo]
  {
    var store := new ChatStore();
    store.SetSelectedUser(Some(peer));
    store.SubscribeToMessages();
    var pending, _ := store.StartSendMessage(draft, sentAt);
    store.ReceiveNewMessage(pushed);
    afterPush := store.messages;
    var _ := store.CompleteSendMessage(pending.value, Ok(echo));
    afterSend := store.messages;
  }

  /** A handler keeps filtering by the user selected when it was registered:
      after the selection moves from `first` to `second` without
      re-subscribing, a message from `second` is dropped and one from
      `first` is appended. */
  method HandlerKeepsCapturedUser(first: User, second: User, fromFirst: Message, fromSecond: Message)
    returns (timeline: seq<Message>)
    requires first.id != second.id
    requires fromFirst.senderId == first.id && fromSecond.senderId == second.id
    ensures timeline == [fromFirst]
  {
    var store := new ChatStore();
    store.SetSelectedUser(Some(first));
    store.SubscribeToMessages();
    store.SetSelectedUser(Some(second));
    store.ReceiveNewMessage(fromSecond);
    store.ReceiveNewMessage(fromFirst);
    timeline := store.messages;
  }

  /** Subscribing twice without unsubscribing delivers each message twice. */
  method DoubleSubscribeDuplicates(peer: User, m: Message) returns (timeline: seq<Message>)
    requires m.senderId == peer.id
    ensures timeline == [m, m]
  {
    var store := new ChatStore();
    store.SetSelectedUser(Some(peer));
    store.SubscribeToMessages();
    store.SubscribeToMessages();
    store.ReceiveNewMessage(m);
    timeline := store.messages;
  }

  /** After unsubscribing, pushed messages no longer reach the timeline. */
  method UnsubscribeSilencesPush(peer: User, history: seq<Message>, m: Message) returns (timeline: seq<Message>)
    ensures timeline == history
  {
    var store := new ChatStore();
    store.SetSelectedUser(Some(peer));
    store.StartGetMessages();
    var _ := store.CompleteGetMessages(Ok(history));
    store.SubscribeToMessages();
    store.UnsubscribeFromMessages();
    store.ReceiveNewMessage(m);
    timeline := store.messages;
  }

  /** A roster fetch that fails without a response, after one that loaded
      `roster`: the roster is kept and the loading flag cleared, but the
      operation rejects instead of showing a toast. */
  method RosterFailureWithoutResponse(roster: seq<User>) returns (users: seq<User>, loading: bool, report: Report)
    ensures users == roster
    ensures !loading
    ensures report == Thrown
  {
    var store := new ChatStore();
    store.StartGetUsers();
    var _ := store.CompleteGetUsers(Ok(roster));
    store.StartGetUsers();
    report := store.CompleteGetUsers(Err(RequestError(None)));
    users, loading := store.users, store.isUsersLoading;
  }
}
