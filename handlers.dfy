/** The handler tables of the `template` module, `EVENT_HANDLERS` and `COMMAND_HANDLERS`,
    and what they make of the bus. Handlers are named by their function names. */
module Handlers {
  import opened Common
  import opened Messages
  import opened Bus
  import IntRows
  import TemplateServices

  const SendNotification: HandlerId := "send_template_value_set_notification"

  /** `EVENT_HANDLERS`: only `TemplateValueSet` has a handler. */
  const EventHandlers: map<string, seq<HandlerId>> := map[
    "TemplateValueSet" := [SendNotification],
    "TemplateValueSubtracted" := [],
    "TemplateCreated" := [],
    "TemplateDeleted" := []
  ]

  /** `COMMAND_HANDLERS`: each command goes to the service of the same name. */
  const CommandHandlers: map<string, HandlerId> := map[
    "SetTemplateValue" := "set_template_value",
    "SubtractTemplateValue" := "subtract_template_value",
    "CreateTemplate" := "create_template",
    "DeleteTemplate" := "delete_template"
  ]

  /** The bus of the module, for a given behaviour of the handlers. */
  function Tables(behave: (HandlerId, Item) -> Behaviour): Config {
    Config(EventHandlers, CommandHandlers, behave)
  }

  /** The service a command of the module is mapped to. */
  function ServiceFor(k: Command): HandlerId
    requires !k.OtherCommand?
  {
    match k
    case SetTemplateValue(_, _) => "set_template_value"
    case SubtractTemplateValue(_, _) => "subtract_template_value"
    case CreateTemplate => "create_template"
    case DeleteTemplate(_) => "delete_template"
  }

  /** Every event class of the module has an entry, so none raises NotImplementedError;
      `TemplateValueSet` has exactly the notification handler and the others none. The
      `template_module` class of `TemplateValueSet` has no entry. */
  lemma EventsRegistered(e: Event)
    requires !e.OtherEvent?
    ensures EventType(e) in EventHandlers <==> !TextualValueSet(e)
    ensures !TextualValueSet(e) ==> EventHandlers[EventType(e)] == if e.TemplateValueSet? then [SendNotification] else []
  {
    match e
    case TemplateCreated(_, _) =>
    case TemplateValueSet(_, _) =>
    case TemplateValueSubtracted(_, _, _) =>
    case TemplateDeleted(_) =>
  }

  /** Each of the four command classes maps to exactly one service. */
  lemma CommandsRegistered(k: Command)
    requires !k.OtherCommand?
    ensures CommandType(k) in CommandHandlers && CommandHandlers[CommandType(k)] == ServiceFor(k)
  {
    match k
    case SetTemplateValue(_, _) =>
    case SubtractTemplateValue(_, _) =>
    case CreateTemplate =>
    case DeleteTemplate(_) =>
  }

  /** A `template_module` `TemplateValueSet` reaching this module's tables raises
      NotImplementedError before any handler runs. */
  lemma ForeignValueSetRaises(behave: (HandlerId, Item) -> Behaviour, id: Id, t: TextValue, q: seq<Item>, calls: seq<Call>, fuel: nat)
    requires fuel > 0
    ensures Drain(Tables(behave), [Ev(TemplateValueSet(id, Textual(t)))] + q, calls, fuel) ==
            Step(q, calls, fuel - 1, Raised(NotImplemented))
  {
    EventsRegistered(TemplateValueSet(id, Textual(t)));
    UnregisteredRaises(Tables(behave), Ev(TemplateValueSet(id, Textual(t))), q, calls, fuel);
  }

  /** Dispatching `TemplateCreated`, `TemplateDeleted` or `TemplateValueSubtracted` calls
      nothing and changes nothing: the drain moves on to the next message. */
  lemma SilentEventsAreNoOps(behave: (HandlerId, Item) -> Behaviour, e: Event, q: seq<Item>, calls: seq<Call>, fuel: nat)
    requires e.TemplateCreated? || e.TemplateDeleted? || e.TemplateValueSubtracted?
    requires fuel > 0
    ensures Dispatch(Tables(behave), Ev(e), q, calls, fuel) == Step(q, calls, fuel, Done)
    ensures Drain(Tables(behave), [Ev(e)] + q, calls, fuel) == Drain(Tables(behave), q, calls, fuel - 1)
  {
    var c := Tables(behave);
    assert EventType(e) in c.eventHandlers && c.eventHandlers[EventType(e)] == [] by {
      EventsRegistered(e);
    }
    assert Dispatch(c, Ev(e), q, calls, fuel - 1) == Step(q, calls, fuel - 1, Done);
    assert ([Ev(e)] + q)[0] == Ev(e) && ([Ev(e)] + q)[1..] == q;
  }

  /** A `SetTemplateValue` command whose service publishes one `TemplateValueSet` through
      a nested `handle` and returns `None`: the service runs once, then the notification
      handler once, and the bus ends empty. */
  lemma SetValueCommandNotifiesOnce(behave: (HandlerId, Item) -> Behaviour, id: Id, v: int, calls: seq<Call>, fuel: nat)
    requires fuel >= 3
    requires behave("set_template_value", Cmd(SetTemplateValue(id, Number(v)))) ==
             Behaviour(Some([Ev(TemplateValueSet(id, Number(v)))]), Returns(ReturnedOther))
    requires Quiet(Tables(behave), SendNotification, Ev(TemplateValueSet(id, Number(v))))
    ensures Drain(Tables(behave), [Cmd(SetTemplateValue(id, Number(v)))], calls, fuel) ==
            Step([], calls + [Call("set_template_value", Cmd(SetTemplateValue(id, Number(v)))),
                              Call(SendNotification, Ev(TemplateValueSet(id, Number(v))))], fuel - 3, Done)
  {
    var c := Tables(behave);
    var m := Cmd(SetTemplateValue(id, Number(v)));
    var ev := Ev(TemplateValueSet(id, Number(v)));
    var calls' := calls + [Call("set_template_value", m)];
    assert c.commandHandlers[CommandType(m.command)] == "set_template_value" by {
      CommandsRegistered(m.command);
    }
    assert QuietlyHandled(c, ev) by {
      EventsRegistered(ev.event);
    }
    NestedHandleDrainsSharedQueue(c, m, [], [ev], calls, fuel);
    assert [m] + [] == [m] && [] + [ev] == [ev];
    DrainQuietIsFifo(c, [ev], calls', fuel - 2);
    assert CallsForAll(c, [ev]) == [Call(SendNotification, ev)] by {
      assert [ev][1..] == [];
    }
  }

  /** A command of the module: one of its four classes, a `SetTemplateValue` carrying an
      integer as the module's `TemplateValue` does. */
  predicate ModuleCommand(k: Command) {
    !k.OtherCommand? && (k.SetTemplateValue? ==> k.value.Number?)
  }

  /** The `with` block the service of `k` runs on the committed table `w`; `freshId` and
      `now` are the id and clock reading `create_template` draws. */
  function TxFor(w: IntRows.Table, k: Command, freshId: Id, now: Timestamp): Result<TemplateServices.Tx>
    requires ModuleCommand(k)
  {
    match k
    case CreateTemplate => TemplateServices.CreateTx(w, freshId, now)
    case DeleteTemplate(id) => TemplateServices.DeleteTx(w, id)
    case SetTemplateValue(id, v) => TemplateServices.SetValueTx(w, id, v.n)
    case SubtractTemplateValue(id, amount) => TemplateServices.SubtractTx(w, id, amount)
  }

  /** The service of `k` as the bus sees it: when the block commits, the service hands its
      one event to a nested `handle` and returns `None` (or, for `create_template`, an
      `OutputTemplate`: neither a message, a sequence nor a `Template`); when the block
      raises, the exception escapes before anything is published. */
  function ServiceBehaviour(w: IntRows.Table, k: Command, freshId: Id, now: Timestamp): Behaviour
    requires ModuleCommand(k)
  {
    match TxFor(w, k, freshId, now)
    case Ok(tx) => Behaviour(Some([Ev(tx.event)]), Returns(ReturnedOther))
    case Err(e) => Behaviour(None, Raises(e))
  }

  /** A command of the module, on a bus whose services behave as the service models do on
      table `w`: if the block fails, `handle` raises its exception (a KeyError, which the
      mappers raise for a row without a value, as NotImplementedError) and leaves the queue
      behind the command as it was; if it commits, nothing is collected from the service's
      result, and the effect is that of draining what was already queued followed by the
      published event. */
  lemma ServiceCommandEffect(behave: (HandlerId, Item) -> Behaviour, w: IntRows.Table, k: Command,
                             freshId: Id, now: Timestamp, q: seq<Item>, calls: seq<Call>, fuel: nat)
    requires ModuleCommand(k) && fuel >= 2
    requires behave(ServiceFor(k), Cmd(k)) == ServiceBehaviour(w, k, freshId, now)
    ensures var tx := TxFor(w, k, freshId, now);
            var s := Drain(Tables(behave), [Cmd(k)] + q, calls, fuel);
            var calls' := calls + [Call(ServiceFor(k), Cmd(k))];
            (tx.Err? ==> s == Step(q, calls', fuel - 1, Raised(if tx.error == KeyError then NotImplemented else tx.error))) &&
            (tx.Ok? ==> var inner := Drain(Tables(behave), q + [Ev(tx.value.event)], calls', fuel - 2);
                        s == if inner.status == Raised(KeyError) then inner.(status := Raised(NotImplemented)) else inner)
  {
    CommandsRegistered(k);
    var tx := TxFor(w, k, freshId, now);
    if tx.Err? {
      RaisingHandlerPropagates(Tables(behave), Cmd(k), q, calls, fuel, tx.error);
    } else {
      NestedHandleDrainsSharedQueue(Tables(behave), Cmd(k), q, [Ev(tx.value.event)], calls, fuel);
    }
  }
}
