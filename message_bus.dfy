/** The in-process `MessageBus`: a FIFO queue drained by `handle`, dispatching each
    event to the list of handlers registered under its exact type and each command to
    its single handler, and collecting follow-up messages from what the handlers return.

    Handlers are opaque: a given function `behave` says, for a handler and a message,
    which messages the handler hands to a nested `handle` call on the same bus (as the
    command services do) and what it then returns or raises. The bus carries a step
    budget `fuel`, one unit per dispatched message and per nested `handle`, so that the
    drain provably ends; `OutOfFuel` reports a run that did not finish within it. */
module Bus {
  import opened Common
  import opened Messages

  /** The name of a handler function. */
  type HandlerId = string

  /** What a handler returns, as `_collect_new_messages` distinguishes it. */
  datatype Returned =
    | ReturnedItem(item: Item)          // a single value that is not a sequence
    | ReturnedSequence(items: seq<Item>) // a list, tuple or other sequence
    | ReturnedTemplate(messages: seq<Item>) // a `Template` entity, through its `.messages`
    | ReturnedOther                     // `None`, a DTO, anything else

  datatype HandlerOutcome = Returns(result: Returned) | Raises(error: Error)

  /** One run of a handler: the messages it passes to a nested `handle` call (if it
      makes one) and then what it returns or raises. */
  datatype Behaviour = Behaviour(nested: Option<seq<Item>>, outcome: HandlerOutcome)

  /** The handler tables and the handlers' behaviour. */
  datatype Config = Config(
    eventHandlers: map<string, seq<HandlerId>>,
    commandHandlers: map<string, HandlerId>,
    behave: (HandlerId, Item) -> Behaviour)

  /** One invocation of a handler, the observable effect of dispatching. */
  datatype Call = Call(handler: HandlerId, message: Item)

  datatype Status = Done | Raised(error: Error)

  /** The state of the bus after a step: its queue, the calls made so far, the budget
      left, and whether the step returned or raised. */
  datatype Step = Step(queue: seq<Item>, calls: seq<Call>, fuel: nat, status: Status)

  /** The messages among `xs`, in order (`isinstance(message, Message)`). */
  function MessagesOf(xs: seq<Item>): (ys: seq<Item>)
    ensures |ys| <= |xs|
    ensures forall y :: y in ys ==> y in xs && IsMessage(y)
    ensures forall x :: x in xs && IsMessage(x) ==> x in ys
    decreases |xs|
  {
    if xs == [] then []
    else if IsMessage(xs[0]) then [xs[0]] + MessagesOf(xs[1..])
    else MessagesOf(xs[1..])
  }

  /** Filtering distributes over concatenation, so the relative order of messages is kept. */
  lemma {:induction false} MessagesOfAppend(a: seq<Item>, b: seq<Item>)
    ensures MessagesOf(a + b) == MessagesOf(a) + MessagesOf(b)
    decreases |a|
  {
    if a != [] {
      assert (a + b)[0] == a[0] && (a + b)[1..] == a[1..] + b;
      MessagesOfAppend(a[1..], b);
      if IsMessage(a[0]) {
        assert MessagesOf(a + b) == [a[0]] + MessagesOf(a[1..] + b);
      } else {
        assert MessagesOf(a + b) == MessagesOf(a[1..] + b);
      }
    } else {
      assert a + b == b;
    }
  }

  /** `_collect_new_messages`: what a handler's result adds to the queue. */
  function Collected(r: Returned): (ms: seq<Item>)
    ensures forall m :: m in ms ==> IsMessage(m)
    ensures r.ReturnedItem? ==> ms == (if IsMessage(r.item) then [r.item] else [])
    ensures r.ReturnedSequence? ==> ms == MessagesOf(r.items)
    ensures r.ReturnedTemplate? ==> ms == MessagesOf(r.messages)
    ensures r.ReturnedOther? ==> ms == []
  {
    match r
    case ReturnedItem(x) => if IsMessage(x) then [x] else []
    case ReturnedSequence(xs) => MessagesOf(xs)
    case ReturnedTemplate(xs) => MessagesOf(xs)
    case ReturnedOther => []
  }

  /** The `while self.queue` loop of `handle`, from queue `q`. */
  function Drain(c: Config, q: seq<Item>, calls: seq<Call>, fuel: nat): (s: Step)
    ensures s.fuel <= fuel
    ensures |calls| <= |s.calls| && s.calls[..|calls|] == calls
    ensures s.status.Done? ==> s.queue == []
    decreases fuel, 3
  {
    if q == [] then Step(q, calls, fuel, Done)
    else if fuel == 0 then Step(q, calls, 0, Raised(OutOfFuel))
    else
      var s := Dispatch(c, q[0], q[1..], calls, fuel - 1);
      if s.status.Raised? then s else Drain(c, s.queue, s.calls, s.fuel)
  }

  /** One pass of the loop body: message `m` has been popped and `q` is the rest. */
  function Dispatch(c: Config, m: Item, q: seq<Item>, calls: seq<Call>, fuel: nat): (s: Step)
    ensures s.fuel <= fuel
    ensures |calls| <= |s.calls| && s.calls[..|calls|] == calls
    decreases fuel, 2
  {
    match m
    case NotAMessage => Step(q, calls, fuel, Raised(NotImplemented))
    case Ev(e) =>
      if EventType(e) !in c.eventHandlers then Step(q, calls, fuel, Raised(NotImplemented))
      else InvokeAll(c, c.eventHandlers[EventType(e)], m, q, calls, fuel)
    case Cmd(k) =>
      if CommandType(k) !in c.commandHandlers then Step(q, calls, fuel, Raised(NotImplemented))
      else
        var s := Invoke(c, c.commandHandlers[CommandType(k)], m, q, calls, fuel);
        // the handler runs inside the `try` that turns a KeyError into NotImplementedError
        if s.status == Raised(KeyError) then s.(status := Raised(NotImplemented)) else s
  }

  /** `for handler in handlers`: each handler in list order, stopping at an exception. */
  function InvokeAll(c: Config, hs: seq<HandlerId>, m: Item, q: seq<Item>, calls: seq<Call>, fuel: nat): (s: Step)
    ensures s.fuel <= fuel
    ensures |calls| <= |s.calls| && s.calls[..|calls|] == calls
    decreases fuel, 1, |hs|
  {
    if hs == [] then Step(q, calls, fuel, Done)
    else
      var s := Invoke(c, hs[0], m, q, calls, fuel);
      if s.status.Raised? then s else InvokeAll(c, hs[1..], m, s.queue, s.calls, s.fuel)
  }

  /** One handler call: its nested `handle` drains the shared queue, then its result is
      collected into the queue. */
  function Invoke(c: Config, h: HandlerId, m: Item, q: seq<Item>, calls: seq<Call>, fuel: nat): (s: Step)
    ensures s.fuel <= fuel
    ensures |calls| < |s.calls| && s.calls[..|calls|] == calls && s.calls[|calls|] == Call(h, m)
    decreases fuel, 0
  {
    var b := c.behave(h, m);
    var calls' := calls + [Call(h, m)];
    match b.nested
    case None => Finish(b.outcome, q, calls', fuel)
    case Some(ms) =>
      if fuel == 0 then Step(q + ms, calls', 0, Raised(OutOfFuel))
      else
        var s := Drain(c, q + ms, calls', fuel - 1);
        assert s.calls[..|calls'|] == calls';
        assert s.calls[|calls|] == calls'[|calls|];
        if s.status.Raised? then s else Finish(b.outcome, s.queue, s.calls, s.fuel)
  }

  /** The handler returns (its result is collected) or raises (the exception propagates). */
  function Finish(o: HandlerOutcome, q: seq<Item>, calls: seq<Call>, fuel: nat): Step {
    match o
    case Returns(r) => Step(q + Collected(r), calls, fuel, Done)
    case Raises(e) => Step(q, calls, fuel, Raised(e))
  }

  /** `handle(messages)` on a bus whose queue is `q`. */
  function Handled(c: Config, q: seq<Item>, messages: seq<Item>, calls: seq<Call>, fuel: nat): Step {
    Drain(c, q + messages, calls, fuel)
  }

  // ---------------------------------------------------------------------------
  // Properties of the dispatch

  /** A handler that makes no nested call, returns nothing to collect and raises nothing,
      such as a notification sender. */
  predicate Quiet(c: Config, h: HandlerId, m: Item) {
    c.behave(h, m) == Behaviour(None, Returns(ReturnedOther))
  }

  /** The calls that dispatching `m` makes when all its handlers are quiet. */
  function CallsFor(c: Config, m: Item): seq<Call> {
    match m
    case Ev(e) => if EventType(e) in c.eventHandlers then CallsOf(c.eventHandlers[EventType(e)], m) else []
    case Cmd(k) => if CommandType(k) in c.commandHandlers then [Call(c.commandHandlers[CommandType(k)], m)] else []
    case NotAMessage => []
  }

  function CallsOf(hs: seq<HandlerId>, m: Item): (cs: seq<Call>)
    ensures |cs| == |hs|
    ensures forall i :: 0 <= i < |hs| ==> cs[i] == Call(hs[i], m)
  {
    if hs == [] then [] else [Call(hs[0], m)] + CallsOf(hs[1..], m)
  }

  /** The message is registered and every handler it reaches is quiet. */
  predicate QuietlyHandled(c: Config, m: Item) {
    match m
    case Ev(e) => EventType(e) in c.eventHandlers && forall h :: h in c.eventHandlers[EventType(e)] ==> Quiet(c, h, m)
    case Cmd(k) => CommandType(k) in c.commandHandlers && Quiet(c, c.commandHandlers[CommandType(k)], m)
    case NotAMessage => false
  }

  /** A quiet handler is called once and leaves the queue as it was. */
  lemma InvokeQuiet(c: Config, h: HandlerId, m: Item, q: seq<Item>, calls: seq<Call>, fuel: nat)
    requires Quiet(c, h, m)
    ensures Invoke(c, h, m, q, calls, fuel) == Step(q, calls + [Call(h, m)], fuel, Done)
  {
    assert Collected(ReturnedOther) == [] && q + [] == q;
  }

  /** One round of `for handler in handlers` that did not raise hands its state to the rest. */
  lemma InvokeAllStep(c: Config, hs: seq<HandlerId>, m: Item, q: seq<Item>, calls: seq<Call>, fuel: nat)
    requires hs != [] && Invoke(c, hs[0], m, q, calls, fuel).status.Done?
    ensures var s := Invoke(c, hs[0], m, q, calls, fuel);
            InvokeAll(c, hs, m, q, calls, fuel) == InvokeAll(c, hs[1..], m, s.queue, s.calls, s.fuel)
  {
  }

  /** The calls of a handler list are those of its head followed by those of its tail. */
  lemma CallsOfStep(hs: seq<HandlerId>, m: Item, calls: seq<Call>)
    requires hs != []
    ensures (calls + [Call(hs[0], m)]) + CallsOf(hs[1..], m) == calls + CallsOf(hs, m)
  {
  }

  /** Quiet handlers of an event are called once each, in list order, and the queue is
      left as it was. */
  lemma {:induction false} InvokeAllQuiet(c: Config, hs: seq<HandlerId>, m: Item, q: seq<Item>, calls: seq<Call>, fuel: nat)
    requires forall h :: h in hs ==> Quiet(c, h, m)
    ensures InvokeAll(c, hs, m, q, calls, fuel) == Step(q, calls + CallsOf(hs, m), fuel, Done)
    decreases |hs|
  {
    if hs != [] {
      assert hs[0] in hs;
      InvokeQuiet(c, hs[0], m, q, calls, fuel);
      InvokeAllStep(c, hs, m, q, calls, fuel);
      assert forall h :: h in hs[1..] ==> h in hs;
      InvokeAllQuiet(c, hs[1..], m, q, calls + [Call(hs[0], m)], fuel);
      CallsOfStep(hs, m, calls);
    }
  }

  /** Dispatching a quietly handled message calls exactly the handlers registered under its
      exact type (an event's list, in order; a command's single handler) and nothing else. */
  lemma DispatchQuiet(c: Config, m: Item, q: seq<Item>, calls: seq<Call>, fuel: nat)
    requires QuietlyHandled(c, m)
    ensures Dispatch(c, m, q, calls, fuel) == Step(q, calls + CallsFor(c, m), fuel, Done)
  {
    match m
    case Ev(e) => InvokeAllQuiet(c, c.eventHandlers[EventType(e)], m, q, calls, fuel);
    case Cmd(k) =>
  }

  /** The calls of a whole queue of quietly handled messages, message by message. */
  function CallsForAll(c: Config, q: seq<Item>): seq<Call>
    decreases |q|
  {
    if q == [] then [] else CallsFor(c, q[0]) + CallsForAll(c, q[1..])
  }

  /** One turn of the loop over a quietly handled message: its handlers are called and the
      loop goes on with the rest of the queue. */
  lemma DrainStepQuiet(c: Config, m: Item, q: seq<Item>, calls: seq<Call>, fuel: nat)
    requires QuietlyHandled(c, m) && fuel >= 1
    ensures Drain(c, [m] + q, calls, fuel) == Drain(c, q, calls + CallsFor(c, m), fuel - 1)
  {
    assert ([m] + q)[0] == m && ([m] + q)[1..] == q;
    DispatchQuiet(c, m, q, calls, fuel - 1);
  }

  /** FIFO: with quiet handlers and enough budget, draining a queue calls the handlers of
      its first message, then those of the second, and so on, and ends with an empty queue. */
  lemma {:induction false} DrainQuietIsFifo(c: Config, q: seq<Item>, calls: seq<Call>, fuel: nat)
    requires forall i :: 0 <= i < |q| ==> QuietlyHandled(c, q[i])
    requires fuel >= |q|
    ensures Drain(c, q, calls, fuel) == Step([], calls + CallsForAll(c, q), fuel - |q|, Done)
    decreases |q|
  {
    if q != [] {
      assert q == [q[0]] + q[1..];
      DrainStepQuiet(c, q[0], q[1..], calls, fuel);
      DrainQuietIsFifo(c, q[1..], calls + CallsFor(c, q[0]), fuel - 1);
      assert calls + CallsFor(c, q[0]) + CallsForAll(c, q[1..]) == calls + CallsForAll(c, q);
    }
  }

  /** A handler that makes no nested `handle` call and returns normally; whatever it
      returns is collected behind the queue. Quiet handlers are the ones collecting nothing. */
  predicate Returning(c: Config, h: HandlerId, m: Item) {
    c.behave(h, m).nested.None? && c.behave(h, m).outcome.Returns?
  }

  /** The messages `_collect_new_messages` takes from what handler `h` returns for `m`. */
  function FollowUps(c: Config, h: HandlerId, m: Item): seq<Item> {
    match c.behave(h, m).outcome
    case Returns(r) => Collected(r)
    case Raises(_) => []
  }

  /** The follow-ups of a handler list, in list order. */
  function FollowUpsOf(c: Config, hs: seq<HandlerId>, m: Item): seq<Item>
    decreases |hs|
  {
    if hs == [] then [] else FollowUps(c, hs[0], m) + FollowUpsOf(c, hs[1..], m)
  }

  /** The follow-ups that dispatching `m` collects: those of an event's handlers in list
      order, or those of a command's handler. */
  function FollowUpsFor(c: Config, m: Item): seq<Item> {
    match m
    case Ev(e) => if EventType(e) in c.eventHandlers then FollowUpsOf(c, c.eventHandlers[EventType(e)], m) else []
    case Cmd(k) => if CommandType(k) in c.commandHandlers then FollowUps(c, c.commandHandlers[CommandType(k)], m) else []
    case NotAMessage => []
  }

  /** The message is registered and every handler it reaches returns normally without a
      nested call. */
  predicate ReturningHandled(c: Config, m: Item) {
    match m
    case Ev(e) => EventType(e) in c.eventHandlers && forall h :: h in c.eventHandlers[EventType(e)] ==> Returning(c, h, m)
    case Cmd(k) => CommandType(k) in c.commandHandlers && Returning(c, c.commandHandlers[CommandType(k)], m)
    case NotAMessage => false
  }

  /** A returning handler is called once and its collected messages join the back of the queue. */
  lemma InvokeReturning(c: Config, h: HandlerId, m: Item, q: seq<Item>, calls: seq<Call>, fuel: nat)
    requires Returning(c, h, m)
    ensures Invoke(c, h, m, q, calls, fuel) == Step(q + FollowUps(c, h, m), calls + [Call(h, m)], fuel, Done)
  {
  }

  /** Returning handlers of an event are called once each, in list order, and each one's
      collected messages are appended after those of the handlers before it. */
  lemma {:induction false} InvokeAllReturning(c: Config, hs: seq<HandlerId>, m: Item, q: seq<Item>, calls: seq<Call>, fuel: nat)
    requires forall h :: h in hs ==> Returning(c, h, m)
    ensures InvokeAll(c, hs, m, q, calls, fuel) == Step(q + FollowUpsOf(c, hs, m), calls + CallsOf(hs, m), fuel, Done)
    decreases |hs|
  {
    if hs == [] {
      assert q + [] == q && calls + [] == calls;
    } else {
      assert hs[0] in hs;
      InvokeReturning(c, hs[0], m, q, calls, fuel);
      InvokeAllStep(c, hs, m, q, calls, fuel);
      assert forall h :: h in hs[1..] ==> h in hs;
      InvokeAllReturning(c, hs[1..], m, q + FollowUps(c, hs[0], m), calls + [Call(hs[0], m)], fuel);
      CallsOfStep(hs, m, calls);
      FollowUpsOfStep(c, hs, m, q);
    }
  }

  /** The follow-ups of a handler list are those of its head followed by those of its tail. */
  lemma FollowUpsOfStep(c: Config, hs: seq<HandlerId>, m: Item, q: seq<Item>)
    requires hs != []
    ensures (q + FollowUps(c, hs[0], m)) + FollowUpsOf(c, hs[1..], m) == q + FollowUpsOf(c, hs, m)
  {
  }

  /** Dispatching a message whose handlers all return normally calls them as registered and
      appends their collected messages, in call order, to the queue. */
  lemma DispatchReturning(c: Config, m: Item, q: seq<Item>, calls: seq<Call>, fuel: nat)
    requires ReturningHandled(c, m)
    ensures Dispatch(c, m, q, calls, fuel) == Step(q + FollowUpsFor(c, m), calls + CallsFor(c, m), fuel, Done)
  {
    match m
    case Ev(e) => InvokeAllReturning(c, c.eventHandlers[EventType(e)], m, q, calls, fuel);
    case Cmd(k) => InvokeReturning(c, c.commandHandlers[CommandType(k)], m, q, calls, fuel);
  }

  /** One turn of the `while self.queue` loop: the head message is dispatched, the messages
      its handlers return are queued behind everything already waiting, and the loop goes on
      from there. */
  lemma DrainStepReturning(c: Config, m: Item, q: seq<Item>, calls: seq<Call>, fuel: nat)
    requires ReturningHandled(c, m) && fuel >= 1
    ensures Drain(c, [m] + q, calls, fuel) == Drain(c, q + FollowUpsFor(c, m), calls + CallsFor(c, m), fuel - 1)
  {
    assert ([m] + q)[0] == m && ([m] + q)[1..] == q;
    DispatchReturning(c, m, q, calls, fuel - 1);
  }

  /** The handler tables of the collecting scenario: a handler of `SubEvent` returns
      `returned`, and the handler of the base `DomainEvent` class returns nothing to collect. */
  function CollectingConfig(returned: Returned): Config {
    Config(map["SubEvent" := ["sub_event_handler"], "DomainEvent" := ["event_handler"]], map[],
           (h: HandlerId, m: Item) =>
             if h == "sub_event_handler" then Behaviour(None, Returns(returned))
             else Behaviour(None, Returns(ReturnedOther)))
  }

  /** In the collecting scenario, `SubEvent` collects one `DomainEvent` and that one
      collects nothing; each reaches its single handler. */
  lemma CollectingTables(returned: Returned)
    requires returned == ReturnedItem(Ev(OtherEvent("DomainEvent")))
          || returned == ReturnedSequence([Ev(OtherEvent("DomainEvent"))])
    ensures var c := CollectingConfig(returned);
            var sub := Ev(OtherEvent("SubEvent"));
            var base := Ev(OtherEvent("DomainEvent"));
            ReturningHandled(c, sub) && FollowUpsFor(c, sub) == [base] &&
            CallsFor(c, sub) == [Call("sub_event_handler", sub)] &&
            ReturningHandled(c, base) && FollowUpsFor(c, base) == [] &&
            CallsFor(c, base) == [Call("event_handler", base)]
  {
    var base := Ev(OtherEvent("DomainEvent"));
    assert Collected(returned) == [base] by {
      if returned.ReturnedSequence? {
        assert [base][1..] == [];
      }
    }
  }

  /** A message whose handlers return exactly one follow-up, whose own handlers return
      none: one `handle` runs both handler sets, in that order, and empties the queue. */
  lemma DrainChainOfTwo(c: Config, m1: Item, m2: Item, calls: seq<Call>, fuel: nat)
    requires ReturningHandled(c, m1) && FollowUpsFor(c, m1) == [m2]
    requires ReturningHandled(c, m2) && FollowUpsFor(c, m2) == []
    requires fuel >= 2
    ensures Drain(c, [m1], calls, fuel) == Step([], calls + CallsFor(c, m1) + CallsFor(c, m2), fuel - 2, Done)
  {
    DrainStepReturning(c, m1, [], calls, fuel);
    assert [m1] + [] == [m1] && [] + [m2] == [m2];
    DrainStepReturning(c, m2, [], calls + CallsFor(c, m1), fuel - 1);
    assert [m2] + [] == [m2];
  }

  /** A `DomainEvent` returned by a handler, alone or in a list, is collected and dispatched
      in the same `handle`: each handler is called exactly once and the queue ends empty. */
  lemma CollectedMessageIsHandled(returned: Returned, fuel: nat)
    requires returned == ReturnedItem(Ev(OtherEvent("DomainEvent")))
          || returned == ReturnedSequence([Ev(OtherEvent("DomainEvent"))])
    requires fuel >= 2
    ensures Drain(CollectingConfig(returned), [Ev(OtherEvent("SubEvent"))], [], fuel) ==
            Step([], [Call("sub_event_handler", Ev(OtherEvent("SubEvent"))),
                      Call("event_handler", Ev(OtherEvent("DomainEvent")))], fuel - 2, Done)
  {
    CollectingTables(returned);
    DrainChainOfTwo(CollectingConfig(returned), Ev(OtherEvent("SubEvent")), Ev(OtherEvent("DomainEvent")), [], fuel);
  }

  /** An unregistered event or command type, or a queued value that is no message, raises
      NotImplementedError before any handler runs; the rest of the queue stays queued. */
  lemma UnregisteredRaises(c: Config, m: Item, q: seq<Item>, calls: seq<Call>, fuel: nat)
    requires fuel > 0
    requires m.NotAMessage? || (m.Ev? && EventType(m.event) !in c.eventHandlers)
          || (m.Cmd? && CommandType(m.command) !in c.commandHandlers)
    ensures Drain(c, [m] + q, calls, fuel) == Step(q, calls, fuel - 1, Raised(NotImplemented))
  {
    assert ([m] + q)[0] == m && ([m] + q)[1..] == q;
  }

  /** A handler that raises makes `handle` raise the same exception (a KeyError from a
      command handler as NotImplementedError); the messages behind it stay in the queue. */
  lemma RaisingHandlerPropagates(c: Config, m: Item, q: seq<Item>, calls: seq<Call>, fuel: nat, e: Error)
    requires fuel > 0
    requires m.Cmd? && CommandType(m.command) in c.commandHandlers
    requires c.behave(c.commandHandlers[CommandType(m.command)], m) == Behaviour(None, Raises(e))
    ensures Drain(c, [m] + q, calls, fuel) ==
            Step(q, calls + [Call(c.commandHandlers[CommandType(m.command)], m)], fuel - 1,
                 Raised(if e == KeyError then NotImplemented else e))
  {
    assert ([m] + q)[0] == m && ([m] + q)[1..] == q;
    var h := c.commandHandlers[CommandType(m.command)];
    var s := Invoke(c, h, m, q, calls, fuel - 1);
    assert s == Step(q, calls + [Call(h, m)], fuel - 1, Raised(e));
    assert Dispatch(c, m, q, calls, fuel - 1) == Step(q, calls + [Call(h, m)], fuel - 1, Raised(if e == KeyError then NotImplemented else e));
  }

  /** Re-entrancy: a command handler that hands `ms` to a nested `handle` and returns
      nothing has the same effect as calling it and then draining everything that was
      queued behind the command followed by `ms`; the messages already waiting are
      dispatched inside the nested call, before `ms`. A KeyError escaping the nested call
      leaves `handle_command` as NotImplementedError. */
  lemma NestedHandleDrainsSharedQueue(c: Config, m: Item, q: seq<Item>, ms: seq<Item>, calls: seq<Call>, fuel: nat)
    requires fuel >= 2
    requires m.Cmd? && CommandType(m.command) in c.commandHandlers
    requires c.behave(c.commandHandlers[CommandType(m.command)], m) == Behaviour(Some(ms), Returns(ReturnedOther))
    ensures var inner := Drain(c, q + ms, calls + [Call(c.commandHandlers[CommandType(m.command)], m)], fuel - 2);
            Drain(c, [m] + q, calls, fuel) ==
              if inner.status == Raised(KeyError) then inner.(status := Raised(NotImplemented)) else inner
  {
    assert ([m] + q)[0] == m && ([m] + q)[1..] == q;
    var h := c.commandHandlers[CommandType(m.command)];
    var inner := Drain(c, q + ms, calls + [Call(h, m)], fuel - 2);
    if inner.status.Done? {
      assert inner.queue + Collected(ReturnedOther) == [];
      assert Invoke(c, h, m, q, calls, fuel - 1) == inner;
      assert Dispatch(c, m, q, calls, fuel - 1) == inner;
      assert Drain(c, [], inner.calls, inner.fuel) == inner;
    } else {
      assert Invoke(c, h, m, q, calls, fuel - 1) == inner;
    }
  }

  // ---------------------------------------------------------------------------
  // The bus object

  class MessageBus {
    const config: Config
    /** `self.queue`, the deque. */
    var queue: seq<Item>
    /** The handler calls made so far, the observable effect of the bus. */
    ghost var calls: seq<Call>
    /** The step budget of the model. */
    var fuel: nat

    /** A new bus starts with an empty queue. */
    constructor (eventHandlers: map<string, seq<HandlerId>>, commandHandlers: map<string, HandlerId>,
                 behave: (HandlerId, Item) -> Behaviour, fuel: nat)
      ensures config == Config(eventHandlers, commandHandlers, behave)
      ensures queue == [] && calls == [] && this.fuel == fuel
    {
      config := Config(eventHandlers, commandHandlers, behave);
      queue := [];
      calls := [];
      this.fuel := fuel;
    }

    /** `handle(messages)`: extend the queue and drain it. It returns normally only with an
        empty queue; if a handler raises, what was not processed stays queued. */
    method Handle(messages: seq<Item>) returns (status: Status)
      modifies this
      ensures var s := Handled(config, old(queue), messages, old(calls), old(fuel));
              queue == s.queue && calls == s.calls && fuel == s.fuel && status == s.status
      ensures status.Done? ==> queue == []
      decreases fuel, 3
    {
      queue := queue + messages;
      ghost var goal := Drain(config, queue, calls, fuel);
      while queue != []
        invariant fuel <= old(fuel)
        invariant Drain(config, queue, calls, fuel) == goal
        decreases fuel
      {
        if fuel == 0 {
          return Raised(OutOfFuel);
        }
        var m := queue[0];
        queue := queue[1..];
        fuel := fuel - 1;
        status := HandleMessage(m);
        if status.Raised? {
          return;
        }
      }
      status := Done;
    }

    /** The loop body: dispatch on the kind of the popped message. */
    method HandleMessage(m: Item) returns (status: Status)
      modifies this
      ensures var s := Dispatch(config, m, old(queue), old(calls), old(fuel));
              queue == s.queue && calls == s.calls && fuel == s.fuel && status == s.status
      decreases fuel, 2
    {
      match m
      case Ev(e) => status := HandleEvent(m);
      case Cmd(k) => status := HandleCommand(m);
      case NotAMessage => status := Raised(NotImplemented);
    }

    /** `handle_event`. */
    method HandleEvent(m: Item) returns (status: Status)
      requires m.Ev?
      modifies this
      ensures var s := Dispatch(config, m, old(queue), old(calls), old(fuel));
              queue == s.queue && calls == s.calls && fuel == s.fuel && status == s.status
      decreases fuel, 1
    {
      var t := EventType(m.event);
      if t !in config.eventHandlers {
        return Raised(NotImplemented);
      }
      var hs := config.eventHandlers[t];
      ghost var goal := InvokeAll(config, hs, m, queue, calls, fuel);
      var i := 0;
      while i < |hs|
        invariant 0 <= i <= |hs|
        invariant fuel <= old(fuel)
        invariant InvokeAll(config, hs[i..], m, queue, calls, fuel) == goal
        decreases |hs| - i
      {
        status := RunHandler(hs[i], m);
        if status.Raised? {
          assert hs[i..][1..] == hs[i + 1..];
          return;
        }
        assert hs[i..][1..] == hs[i + 1..];
        i := i + 1;
      }
      status := Done;
    }

    /** `handle_command`. */
    method HandleCommand(m: Item) returns (status: Status)
      requires m.Cmd?
      modifies this
      ensures var s := Dispatch(config, m, old(queue), old(calls), old(fuel));
              queue == s.queue && calls == s.calls && fuel == s.fuel && status == s.status
      decreases fuel, 1
    {
      var t := CommandType(m.command);
      if t !in config.commandHandlers {
        return Raised(NotImplemented);
      }
      status := RunHandler(config.commandHandlers[t], m);
      if status == Raised(KeyError) {
        status := Raised(NotImplemented);
      }
    }

    /** `result = handler(message)` followed by `_collect_new_messages(result)`. */
    method RunHandler(h: HandlerId, m: Item) returns (status: Status)
      modifies this
      ensures var s := Invoke(config, h, m, old(queue), old(calls), old(fuel));
              queue == s.queue && calls == s.calls && fuel == s.fuel && status == s.status
      decreases fuel, 0
    {
      var b := config.behave(h, m);
      calls := calls + [Call(h, m)];
      if b.nested.Some? {
        if fuel == 0 {
          queue := queue + b.nested.value;
          return Raised(OutOfFuel);
        }
        fuel := fuel - 1;
        status := Handle(b.nested.value);
        if status.Raised? {
          return;
        }
      }
      match b.outcome
      case Raises(e) => status := Raised(e);
      case Returns(r) =>
        CollectNewMessages(r);
        status := Done;
    }

    /** `_collect_new_messages`. */
    method CollectNewMessages(r: Returned)
      modifies this`queue
      ensures queue == old(queue) + Collected(r)
    {
      match r
      case ReturnedItem(x) =>
        if IsMessage(x) {
          queue := queue + [x];
        }
      case ReturnedSequence(xs) => queue := queue + MessagesOf(xs);
      case ReturnedTemplate(xs) => queue := queue + MessagesOf(xs);
      case ReturnedOther =>
    }
  }
}
