/** The chat store: the message timeline, the roster, the selected user, the
    two loading flags, the `"newMessage"` handlers registered on the push
    channel and the log of `"sendMessage"` events emitted on it.

    Every `async` operation is split at its `await` into a Start method (what
    runs before the request) and a Complete method that receives the settled
    request as a `Result`; other operations may run in between. */
module Chat {
  import opened ChatTypes

  /** One `"newMessage"` handler's effect on the timeline it reads when the
      event arrives: it appends the message when its sender is the user
      captured at registration, and leaves the timeline alone otherwise. */
  function Handle(timeline: seq<Message>, captured: UserId, m: Message): (r: seq<Message>)
    ensures |timeline| <= |r| <= |timeline| + 1 && r[..|timeline|] == timeline
    ensures |r| == |timeline| + 1 <==> m.senderId == captured
    ensures |r| == |timeline| + 1 ==> r[|timeline|] == m
  {
    if m.senderId == captured then timeline + [m] else timeline
  }

  /** The timeline after the push channel has run every registered handler,
      in registration order, on one inbound message. Handlers only ever
      append, so the old timeline stays a prefix. */
  function ApplyHandlers(timeline: seq<Message>, handlers: seq<UserId>, m: Message): (r: seq<Message>)
    ensures |timeline| <= |r| && r[..|timeline|] == timeline
    decreases |handlers|
  {
    if handlers == [] then timeline
    else Handle(ApplyHandlers(timeline, handlers[..|handlers| - 1], m), handlers[|handlers| - 1], m)
  }

  /** How many registered handlers captured the user `sender`. */
  function CountMatches(handlers: seq<UserId>, sender: UserId): (n: nat)
    ensures n <= |handlers|
    ensures n == 0 <==> sender !in handlers
    decreases |handlers|
  {
    if handlers == [] then 0
    else
      var init := handlers[..|handlers| - 1];
      assert handlers == init + [handlers[|handlers| - 1]];
      CountMatches(init, sender) + (if handlers[|handlers| - 1] == sender then 1 else 0)
  }

  /** The count agrees with the number of occurrences of `sender` in the
      registry, whatever the registration order. */
  lemma {:induction false} CountMatchesIsMultiplicity(handlers: seq<UserId>, sender: UserId)
    ensures CountMatches(handlers, sender) == multiset(handlers)[sender]
    decreases |handlers|
  {
    if handlers != [] {
      var init := handlers[..|handlers| - 1];
      assert handlers == init + [handlers[|handlers| - 1]];
      assert multiset(handlers) == multiset(init) + multiset{handlers[|handlers| - 1]};
      CountMatchesIsMultiplicity(init, sender);
    }
  }

  /** `n` copies of `x`. */
  function Repeat<T>(x: T, n: nat): (r: seq<T>)
    ensures |r| == n
    ensures forall i | 0 <= i < n :: r[i] == x
  {
    if n == 0 then [] else Repeat(x, n - 1) + [x]
  }

  /** Closed form of a delivery: the inbound message is appended once per
      handler that captured its sender, and nothing else changes. */
  lemma {:induction false} ApplyHandlersAppendsCopies(timeline: seq<Message>, handlers: seq<UserId>, m: Message)
    ensures ApplyHandlers(timeline, handlers, m) == timeline + Repeat(m, CountMatches(handlers, m.senderId))
    decreases |handlers|
  {
    if handlers != [] {
      var init := handlers[..|handlers| - 1];
      ApplyHandlersAppendsCopies(timeline, init, m);
    }
  }

  /** A delivery leaves the timeline unchanged exactly when no registered
      handler captured the message's sender. */
  lemma DeliveryFiltersBySender(timeline: seq<Message>, handlers: seq<UserId>, m: Message)
    ensures ApplyHandlers(timeline, handlers, m) == timeline <==> m.senderId !in handlers
  {
    ApplyHandlersAppendsCopies(timeline, handlers, m);
    var n := CountMatches(handlers, m.senderId);
    if n != 0 {
      assert |timeline + Repeat(m, n)| != |timeline|;
    }
  }

  /** Counting matching handlers distributes over concatenating registries. */
  lemma {:induction false} CountMatchesConcat(a: seq<UserId>, b: seq<UserId>, sender: UserId)
    ensures CountMatches(a + b, sender) == CountMatches(a, sender) + CountMatches(b, sender)
    decreases |b|
  {
    if b == [] {
      assert a + b == a;
    } else {
      var init := b[..|b| - 1];
      assert (a + b)[..|a + b| - 1] == a + init;
      CountMatchesConcat(a, init, sender);
    }
  }

  /** `k` registrations that all captured `u` add `k` matches for `u`. */
  lemma {:induction false} CountMatchesRepeat(u: UserId, k: nat)
    ensures CountMatches(Repeat(u, k), u) == k
  {
    if k > 0 {
      var r := Repeat(u, k);
      assert r == Repeat(u, k - 1) + [u];
      assert r[..|r| - 1] == Repeat(u, k - 1);
      CountMatchesRepeat(u, k - 1);
      assert CountMatches(r, u) == CountMatches(r[..|r| - 1], u) + 1;
    }
  }

  /** Subscribing `k` more times while `u` stays selected, with no
      unsubscribe in between, makes every later message from `u` land `k`
      more times: subscriptions stack instead of replacing each other. */
  lemma StackedSubscriptionsDuplicate(timeline: seq<Message>, handlers: seq<UserId>, u: UserId, k: nat, m: Message)
    requires m.senderId == u
    ensures ApplyHandlers(timeline, handlers + Repeat(u, k), m)
         == ApplyHandlers(timeline, handlers, m) + Repeat(m, k)
  {
    var n := CountMatches(handlers, u);
    CountMatchesConcat(handlers, Repeat(u, k), u);
    CountMatchesRepeat(u, k);
    ApplyHandlersAppendsCopies(timeline, handlers + Repeat(u, k), m);
    ApplyHandlersAppendsCopies(timeline, handlers, m);
    assert Repeat(m, n + k) == Repeat(m, n) + Repeat(m, k);
  }

  /** The request a `sendMessage` call has issued and is awaiting: the id of
      the user it was addressed to, the body posted, and the timeline read
      when the call started, which the success path extends. */
  datatype PendingSend = PendingSend(to: UserId, body: SendBody, snapshot: seq<Message>)

  /** One `"sendMessage"` event on the push channel, with the timeline as it
      stood at the moment of the emit. */
  datatype Emission = Emission(payload: Message, timelineAtEmit: seq<Message>)

  class ChatStore {
    var messages: seq<Message>
    var users: seq<User>
    var selectedUser: Option<User>
    var isUsersLoading: bool
    var isMessagesLoading: bool
    /** The push channel's `"newMessage"` handlers, in registration order,
        each given by the user id it captured when it was registered. */
    var handlers: seq<UserId>
    /** Every `"sendMessage"` event emitted, oldest first. */
    var emitted: seq<Emission>

    /** The store's initial state, on a push channel with no handlers yet. */
    constructor ()
      ensures messages == [] && users == [] && selectedUser == None
      ensures !isUsersLoading && !isMessagesLoading
      ensures handlers == [] && emitted == []
    {
      messages, users, selectedUser := [], [], None;
      isUsersLoading, isMessagesLoading := false, false;
      handlers, emitted := [], [];
    }

    /** `getUsers` up to its `await`: raise the roster loading flag. */
    method StartGetUsers()
      modifies this
      ensures isUsersLoading
      ensures messages == old(messages) && users == old(users) && selectedUser == old(selectedUser)
      ensures isMessagesLoading == old(isMessagesLoading)
      ensures handlers == old(handlers) && emitted == old(emitted)
    {
      isUsersLoading := true;
    }

    /** `getUsers` after its `await`: on success the roster becomes the
        fetched one; on failure the roster is kept and the failure reported.
        Either way the loading flag is cleared. */
    method CompleteGetUsers(result: Result<seq<User>, RequestError>) returns (report: Report)
      modifies this
      ensures !isUsersLoading
      ensures users == (if result.Ok? then result.value else old(users))
      ensures report == (if result.Ok? then Silent else UsersFailureReport(result.error))
      ensures messages == old(messages) && selectedUser == old(selectedUser)
      ensures isMessagesLoading == old(isMessagesLoading)
      ensures handlers == old(handlers) && emitted == old(emitted)
    {
      match result {
        case Ok(roster) =>
          users := roster;
          report := Silent;
        case Err(e) =>
          report := UsersFailureReport(e);
      }
      isUsersLoading := false;
    }

    /** `getMessages` up to its `await`: raise the history loading flag. */
    method StartGetMessages()
      modifies this
      ensures isMessagesLoading
      ensures messages == old(messages) && users == old(users) && selectedUser == old(selectedUser)
      ensures isUsersLoading == old(isUsersLoading)
      ensures handlers == old(handlers) && emitted == old(emitted)
    {
      isMessagesLoading := true;
    }

    /** `getMessages` after its `await`: on success the timeline is replaced
        by the fetched history; on failure it is kept and an error toast
        raised. Either way the loading flag is cleared. */
    method CompleteGetMessages(result: Result<seq<Message>, RequestError>) returns (report: Report)
      modifies this
      ensures !isMessagesLoading
      ensures messages == (if result.Ok? then result.value else old(messages))
      ensures report == (if result.Ok? then Silent else Toast(Some(ToastText(result.error, MessagesFallback))))
      ensures users == old(users) && selectedUser == old(selectedUser)
      ensures isUsersLoading == old(isUsersLoading)
      ensures handlers == old(handlers) && emitted == old(emitted)
    {
      match result {
        case Ok(history) =>
          messages := history;
          report := Silent;
        case Err(e) =>
          report := Toast(Some(ToastText(e, MessagesFallback)));
      }
      isMessagesLoading := false;
    }

    /** `sendMessage` up to its `await`: read the selected user and the
        timeline, then post the draft with the send time to the selected
        user. With no user selected, reading its id raises inside the `try`
        block; the rejection carries no response, so the fallback text is
        shown and nothing is posted. The store itself does not change. */
    method StartSendMessage(draft: Draft, sentAt: int) returns (pending: Option<PendingSend>, report: Report)
      ensures selectedUser.None? ==> pending == None && report == Toast(Some(SendFallback))
      ensures selectedUser.Some? ==> report == Silent && pending.Some?
      ensures selectedUser.Some? ==> pending.value.to == selectedUser.value.id
      ensures pending.Some? ==> pending.value.body == SendBody(draft.content, sentAt)
      ensures pending.Some? ==> pending.value.snapshot == messages
    {
      match selectedUser
      case None =>
        pending := None;
        report := Toast(Some(ToastText(RequestError(None), SendFallback)));
      case Some(u) =>
        pending := Some(PendingSend(u.id, SendBody(draft.content, sentAt), messages));
        report := Silent;
    }

    /** `sendMessage` after its `await`. On success the timeline becomes the
        snapshot read at the start with the server's message appended, which
        drops whatever was appended in between; then that message, with its
        `sentAt` replaced by the recorded send time, is emitted once, after
        the timeline already ends with it. On failure nothing changes, nothing
        is emitted and an error toast is raised. */
    method CompleteSendMessage(p: PendingSend, result: Result<Message, RequestError>) returns (report: Report)
      modifies this
      ensures result.Ok? ==> messages == p.snapshot + [result.value]
      ensures result.Ok? ==> emitted == old(emitted) + [Emission(result.value.(sentAt := Some(p.body.sentAt)), messages)]
      ensures result.Ok? ==> report == Silent
      ensures result.Err? ==> messages == old(messages) && emitted == old(emitted)
      ensures result.Err? ==> report == Toast(Some(ToastText(result.error, SendFallback)))
      ensures users == old(users) && selectedUser == old(selectedUser)
      ensures isUsersLoading == old(isUsersLoading) && isMessagesLoading == old(isMessagesLoading)
      ensures handlers == old(handlers)
    {
      match result
      case Ok(m) =>
        messages := p.snapshot + [m];
        emitted := emitted + [Emission(m.(sentAt := Some(p.body.sentAt)), messages)];
        report := Silent;
      case Err(e) =>
        report := Toast(Some(ToastText(e, SendFallback)));
    }

    /** `subscribeToMessages`: with no user selected, nothing happens;
        otherwise one more handler is registered, capturing the selected
        user's id. Earlier handlers stay registered. */
    method SubscribeToMessages()
      modifies this
      ensures selectedUser.None? ==> handlers == old(handlers)
      ensures selectedUser.Some? ==> handlers == old(handlers) + [selectedUser.value.id]
      ensures messages == old(messages) && users == old(users) && selectedUser == old(selectedUser)
      ensures isUsersLoading == old(isUsersLoading) && isMessagesLoading == old(isMessagesLoading)
      ensures emitted == old(emitted)
    {
      if selectedUser.Some? {
        handlers := handlers + [selectedUser.value.id];
      }
    }

    /** `unsubscribeFromMessages`: removes every `"newMessage"` handler. */
    method UnsubscribeFromMessages()
      modifies this
      ensures handlers == []
      ensures messages == old(messages) && users == old(users) && selectedUser == old(selectedUser)
      ensures isUsersLoading == old(isUsersLoading) && isMessagesLoading == old(isMessagesLoading)
      ensures emitted == old(emitted)
    {
      handlers := [];
    }

    /** `setSelectedUser`: changes the selection and nothing else; it neither
        loads history nor re-subscribes. */
    method SetSelectedUser(u: Option<User>)
      modifies this
      ensures selectedUser == u
      ensures messages == old(messages) && users == old(users)
      ensures isUsersLoading == old(isUsersLoading) && isMessagesLoading == old(isMessagesLoading)
      ensures handlers == old(handlers) && emitted == old(emitted)
    {
      selectedUser := u;
    }

    /** A `"newMessage"` event: the push channel runs each registered handler
        in turn, and each handler that captured the sender appends the
        message to the live timeline. */
    method ReceiveNewMessage(m: Message)
      modifies this
      ensures messages == ApplyHandlers(old(messages), handlers, m)
      ensures messages == old(messages) + Repeat(m, CountMatches(handlers, m.senderId))
      ensures users == old(users) && selectedUser == old(selectedUser)
      ensures isUsersLoading == old(isUsersLoading) && isMessagesLoading == old(isMessagesLoading)
      ensures handlers == old(handlers) && emitted == old(emitted)
    {
      var i := 0;
      while i < |handlers|
        invariant 0 <= i <= |handlers|
        invariant messages == ApplyHandlers(old(messages), handlers[..i], m)
        invariant users == old(users) && selectedUser == old(selectedUser)
        invariant isUsersLoading == old(isUsersLoading) && isMessagesLoading == old(isMessagesLoading)
        invariant handlers == old(handlers) && emitted == old(emitted)
      {
        assert handlers[..i + 1][..i] == handlers[..i];
        if m.senderId == handlers[i] {
          messages := messages + [m];
        }
        i := i + 1;
      }
      assert handlers[..i] == handlers;
      ApplyHandlersAppendsCopies(old(messages), handlers, m);
    }
  }
}
