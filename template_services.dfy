/** The command services of the `template` module: `create_template`, `delete_template`,
    `set_template_value` and `subtract_template_value`. Each runs get, mutate and write
    back inside a `with` block on the unit of work, and only after the block has exited
    (committed) hands one domain event to the message bus. The generated id and the clock
    reading are parameters. */
module TemplateServices {
  import opened Common
  import opened Messages
  import IntTemplate
  import IntRows
  import opened UnitOfWork
  import opened Bus

  /** `OutputTemplate`, as `map_template_entity_to_output_dto` fills it. */
  datatype OutputTemplate = OutputTemplate(id: Id, timestamp: Timestamp)

  /** What a transaction commits and the event published after it. */
  datatype Tx = Tx(table: IntRows.Table, event: Event)

  /** The rows the mappers wrote: each under its own id and holding a value. */
  predicate Consistent(w: IntRows.Table) {
    forall id :: id in w ==> w[id].id == id && IntRows.ValueKey in w[id].valueData
  }

  // ---------------------------------------------------------------------------
  // The transactions, on the committed table

  /** The block of `create_template`: a new entity with value 0 and the initial version
      is created. */
  function CreateTx(w: IntRows.Table, id: Id, now: Timestamp): Result<Tx> {
    match IntRows.Created(w, IntTemplate.Record(id, 0, now, IntTemplate.InitialVersion, []))
    case Err(e) => Err(e)
    case Ok(w') => Ok(Tx(w', TemplateCreated(id, now)))
  }

  /** The block of `delete_template`. */
  function DeleteTx(w: IntRows.Table, id: Id): Result<Tx> {
    match IntRows.Deleted(w, id)
    case Err(e) => Err(e)
    case Ok(w') => Ok(Tx(w', TemplateDeleted(id)))
  }

  /** The block of `set_template_value`: get, `set_value`, update. */
  function SetValueTx(w: IntRows.Table, id: Id, v: int): Result<Tx> {
    match IntRows.Fetched(w, id)
    case Err(e) => Err(e)
    case Ok(t) =>
      match IntTemplate.Assigned(t, v)
      case Err(e) => Err(e)
      case Ok(t') =>
        match IntRows.Updated(w, t')
        case Err(e) => Err(e)
        case Ok(w') => Ok(Tx(w', TemplateValueSet(t'.id, Number(v))))
  }

  /** The block of `subtract_template_value`: get, `subtract_value`, update. */
  function SubtractTx(w: IntRows.Table, id: Id, amount: int): Result<Tx> {
    match IntRows.Fetched(w, id)
    case Err(e) => Err(e)
    case Ok(t) =>
      match IntTemplate.Subtracted(t, amount)
      case Err(e) => Err(e)
      case Ok(t') =>
        match IntRows.Updated(w, t')
        case Err(e) => Err(e)
        case Ok(w') => Ok(Tx(w', TemplateValueSubtracted(t'.id, amount, t'.value)))
  }

  /** `set_template_value` run with each of `vs` in turn, stopping at the first failure. */
  function SetValueAll(w: IntRows.Table, id: Id, vs: seq<int>): Result<IntRows.Table>
    decreases |vs|
  {
    if vs == [] then Ok(w)
    else match SetValueTx(w, id, vs[0])
      case Err(e) => Err(e)
      case Ok(tx) => SetValueAll(tx.table, id, vs[1..])
  }

  // ---------------------------------------------------------------------------
  // What the transactions do

  /** A fresh id gets a template with value 0 at version 1, announced by one
      TemplateCreated with its id and timestamp; a taken id is refused by the primary key. */
  lemma CreateEffect(w: IntRows.Table, id: Id, now: Timestamp, other: Id)
    ensures CreateTx(w, id, now).Ok? <==> id !in w
    ensures id in w ==> CreateTx(w, id, now) == Err(IntegrityError)
    ensures id !in w ==>
              var tx := CreateTx(w, id, now).value;
              tx.event == TemplateCreated(id, now) &&
              IntRows.Fetched(tx.table, id) == Ok(IntTemplate.Record(id, 0, now, 1, [])) &&
              (other != id ==> IntRows.Fetched(tx.table, other) == IntRows.Fetched(w, other)) &&
              (Consistent(w) ==> Consistent(tx.table))
  {
    if id !in w {
      IntRows.FetchAfterCreate(w, IntTemplate.Record(id, 0, now, 1, []), other);
    }
  }

  /** Deleting removes exactly that id; an absent id raises TemplateDoesNotExist. */
  lemma DeleteEffect(w: IntRows.Table, id: Id, other: Id)
    ensures DeleteTx(w, id).Ok? <==> id in w
    ensures id !in w ==> DeleteTx(w, id) == Err(TemplateDoesNotExist)
    ensures id in w ==>
              var tx := DeleteTx(w, id).value;
              tx.event == TemplateDeleted(id) && id !in tx.table &&
              (other != id ==> IntRows.Fetched(tx.table, other) == IntRows.Fetched(w, other)) &&
              (Consistent(w) ==> Consistent(tx.table))
  {
    if id in w {
      IntRows.FetchAfterDelete(w, id, other);
    }
  }

  /** Setting a positive value on a stored template stores it with the version raised by
      one and announces it with one TemplateValueSet; an absent id raises
      TemplateDoesNotExist and a value that is not positive InvalidTemplateValue. */
  lemma SetValueEffect(w: IntRows.Table, id: Id, v: int, other: Id)
    requires Consistent(w)
    ensures SetValueTx(w, id, v).Ok? <==> id in w && v > 0
    ensures id !in w ==> SetValueTx(w, id, v) == Err(TemplateDoesNotExist)
    ensures id in w && v <= 0 ==> SetValueTx(w, id, v) == Err(InvalidTemplateValue)
    ensures id in w && v > 0 ==>
              var tx := SetValueTx(w, id, v).value;
              var old_ := w[id];
              tx.event == TemplateValueSet(id, Number(v)) &&
              IntRows.Fetched(tx.table, id) == Ok(IntTemplate.Record(id, v, old_.timestamp, old_.version + 1, [])) &&
              (other != id ==> IntRows.Fetched(tx.table, other) == IntRows.Fetched(w, other)) &&
              Consistent(tx.table)
  {
    if id in w && v > 0 {
      var t := IntRows.Fetched(w, id).value;
      var t' := IntTemplate.Assigned(t, v).value;
      IntRows.FetchAfterUpdate(w, t', other);
    }
  }

  /** Subtracting from a stored template stores `old - amount`, which is positive, with
      the version raised by one, and announces that final value; a result that is not
      positive raises InvalidTemplateValue and an absent id TemplateDoesNotExist. */
  lemma SubtractEffect(w: IntRows.Table, id: Id, amount: int, other: Id)
    requires Consistent(w)
    ensures SubtractTx(w, id, amount).Ok? <==> id in w && w[id].valueData[IntRows.ValueKey] - amount > 0
    ensures id !in w ==> SubtractTx(w, id, amount) == Err(TemplateDoesNotExist)
    ensures id in w && w[id].valueData[IntRows.ValueKey] - amount <= 0 ==> SubtractTx(w, id, amount) == Err(InvalidTemplateValue)
    ensures id in w && w[id].valueData[IntRows.ValueKey] - amount > 0 ==>
              var tx := SubtractTx(w, id, amount).value;
              var old_ := w[id];
              var final := old_.valueData[IntRows.ValueKey] - amount;
              final > 0 &&
              tx.event == TemplateValueSubtracted(id, amount, final) &&
              IntRows.Fetched(tx.table, id) == Ok(IntTemplate.Record(id, final, old_.timestamp, old_.version + 1, [])) &&
              (other != id ==> IntRows.Fetched(tx.table, other) == IntRows.Fetched(w, other)) &&
              Consistent(tx.table)
  {
    if id in w && w[id].valueData[IntRows.ValueKey] - amount > 0 {
      var t := IntRows.Fetched(w, id).value;
      var t' := IntTemplate.Subtracted(t, amount).value;
      IntRows.FetchAfterUpdate(w, t', other);
    }
  }

  /** No lost updates, sequentially: k successful sets on one template raise its version
      by exactly k and leave the last value (101 sets from version 1 give version 102). */
  lemma {:induction false} SetValueAllRaisesVersion(w: IntRows.Table, id: Id, vs: seq<int>)
    requires Consistent(w) && id in w
    requires forall i :: 0 <= i < |vs| ==> vs[i] > 0
    ensures SetValueAll(w, id, vs).Ok?
    ensures var w' := SetValueAll(w, id, vs).value;
            Consistent(w') && id in w' && w'[id].version == w[id].version + |vs| &&
            w'[id].timestamp == w[id].timestamp &&
            (vs != [] ==> w'[id].valueData[IntRows.ValueKey] == vs[|vs| - 1])
    decreases |vs|
  {
    if vs != [] {
      SetValueEffect(w, id, vs[0], id);
      var w1 := SetValueTx(w, id, vs[0]).value.table;
      SetValueAllRaisesVersion(w1, id, vs[1..]);
      if |vs| == 1 {
        assert SetValueAll(w1, id, vs[1..]) == Ok(w1);
      } else {
        assert vs[1..][|vs[1..]| - 1] == vs[|vs| - 1];
      }
    }
  }

  // ---------------------------------------------------------------------------
  // The services

  /** The bus after `handle(messages)` on the state it had at the start of the call. */
  twostate predicate Published(bus: MessageBus, messages: seq<Item>, status: Status)
    reads bus
  {
    var s := Handled(bus.config, old(bus.queue), messages, old(bus.calls), old(bus.fuel));
    bus.queue == s.queue && bus.calls == s.calls && bus.fuel == s.fuel && status == s.status
  }

  /** `create_template`: the block's effect is committed and then, and only then,
      TemplateCreated is handled; the output names the new template. */
  method CreateTemplate(uow: SqlUnitOfWork<IntRows.Row>, bus: MessageBus, freshId: Id, now: Timestamp)
    returns (r: Result<OutputTemplate>)
    modifies uow, uow.session, bus
    ensures var tx := CreateTx(old(uow.durable), freshId, now);
            uow.durable == (if tx.Ok? then tx.value.table else old(uow.durable)) &&
            uow.log == old(uow.log) + ExitCalls(if tx.Ok? then None else Some(tx.error)) &&
            (tx.Err? ==> r == Err(tx.error) && unchanged(bus)) &&
            (tx.Ok? ==> exists status :: Published(bus, [Ev(tx.value.event)], status) &&
                          r == if status.Done? then Ok(OutputTemplate(freshId, now)) else Err(status.error))
  {
    var template := new IntTemplate.Template(freshId, now, IntTemplate.InitialVersion);
    var output := OutputTemplate(template.id, template.timestamp);
    var self := uow.Enter();
    var session := uow.session;
    var created := IntRows.Create(session, template);
    var exc := if created.Fail? then Some(created.error) else None;
    ghost var working := session.working;
    var raised := uow.Exit(exc);
    ExitEffect(Store(old(uow.durable), working, false), exc);
    if raised.Some? {
      return Err(raised.value);
    }
    label committed:
    var status := bus.Handle([Ev(TemplateCreated(template.id, template.timestamp))]);
    assert Published@committed(bus, [Ev(TemplateCreated(freshId, now))], status);
    r := if status.Done? then Ok(output) else Err(status.error);
  }

  /** `delete_template`. */
  method DeleteTemplate(uow: SqlUnitOfWork<IntRows.Row>, bus: MessageBus, id: Id) returns (o: Outcome)
    modifies uow, uow.session, bus
    ensures var tx := DeleteTx(old(uow.durable), id);
            uow.durable == (if tx.Ok? then tx.value.table else old(uow.durable)) &&
            uow.log == old(uow.log) + ExitCalls(if tx.Ok? then None else Some(tx.error)) &&
            (tx.Err? ==> o == Fail(tx.error) && unchanged(bus)) &&
            (tx.Ok? ==> exists status :: Published(bus, [Ev(tx.value.event)], status) &&
                          o == if status.Done? then Pass else Fail(status.error))
  {
    var self := uow.Enter();
    var session := uow.session;
    var deleted := IntRows.Delete(session, id);
    var exc := if deleted.Fail? then Some(deleted.error) else None;
    ghost var working := session.working;
    var raised := uow.Exit(exc);
    ExitEffect(Store(old(uow.durable), working, false), exc);
    if raised.Some? {
      return Fail(raised.value);
    }
    label committed:
    var status := bus.Handle([Ev(TemplateDeleted(id))]);
    assert Published@committed(bus, [Ev(TemplateDeleted(id))], status);
    o := if status.Done? then Pass else Fail(status.error);
  }

  /** `set_template_value`. */
  method SetTemplateValue(uow: SqlUnitOfWork<IntRows.Row>, bus: MessageBus, id: Id, v: int) returns (o: Outcome)
    modifies uow, uow.session, bus
    ensures var tx := SetValueTx(old(uow.durable), id, v);
            uow.durable == (if tx.Ok? then tx.value.table else old(uow.durable)) &&
            uow.log == old(uow.log) + ExitCalls(if tx.Ok? then None else Some(tx.error)) &&
            (tx.Err? ==> o == Fail(tx.error) && unchanged(bus)) &&
            (tx.Ok? ==> exists status :: Published(bus, [Ev(tx.value.event)], status) &&
                          o == if status.Done? then Pass else Fail(status.error))
  {
    var self := uow.Enter();
    var session := uow.session;
    var exc: Option<Error> := None;
    var event: Event := TemplateValueSet(id, Number(v));
    var got := IntRows.Get(session, id);
    if got.Err? {
      exc := Some(got.error);
    } else {
      var template := got.value;
      var setOutcome := template.SetValue(v);
      if setOutcome.Fail? {
        exc := Some(setOutcome.error);
      } else {
        var updated := IntRows.Update(session, template);
        if updated.Fail? {
          exc := Some(updated.error);
        }
        event := TemplateValueSet(template.id, Number(v));
      }
    }
    ghost var working := session.working;
    var raised := uow.Exit(exc);
    ExitEffect(Store(old(uow.durable), working, false), exc);
    if raised.Some? {
      return Fail(raised.value);
    }
    label committed:
    var status := bus.Handle([Ev(event)]);
    assert Published@committed(bus, [Ev(event)], status);
    o := if status.Done? then Pass else Fail(status.error);
  }

  /** `subtract_template_value`: the event carries the amount and the final value that
      `subtract_value` returned. */
  method SubtractTemplateValue(uow: SqlUnitOfWork<IntRows.Row>, bus: MessageBus, id: Id, amount: int) returns (o: Outcome)
    modifies uow, uow.session, bus
    ensures var tx := SubtractTx(old(uow.durable), id, amount);
            uow.durable == (if tx.Ok? then tx.value.table else old(uow.durable)) &&
            uow.log == old(uow.log) + ExitCalls(if tx.Ok? then None else Some(tx.error)) &&
            (tx.Err? ==> o == Fail(tx.error) && unchanged(bus)) &&
            (tx.Ok? ==> exists status :: Published(bus, [Ev(tx.value.event)], status) &&
                          o == if status.Done? then Pass else Fail(status.error))
  {
    var self := uow.Enter();
    var session := uow.session;
    var exc: Option<Error> := None;
    var event: Event := TemplateValueSubtracted(id, amount, 0);
    var got := IntRows.Get(session, id);
    if got.Err? {
      exc := Some(got.error);
    } else {
      var template := got.value;
      var finalValue := template.SubtractValue(amount);
      if finalValue.Err? {
        exc := Some(finalValue.error);
      } else {
        var updated := IntRows.Update(session, template);
        if updated.Fail? {
          exc := Some(updated.error);
        }
        event := TemplateValueSubtracted(template.id, amount, finalValue.value);
      }
    }
    ghost var working := session.working;
    var raised := uow.Exit(exc);
    ExitEffect(Store(old(uow.durable), working, false), exc);
    if raised.Some? {
      return Fail(raised.value);
    }
    label committed:
    var status := bus.Handle([Ev(event)]);
    assert Published@committed(bus, [Ev(event)], status);
    o := if status.Done? then Pass else Fail(status.error);
  }
}
