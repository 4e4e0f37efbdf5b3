/** The command services of the `template_module` module: `create_template`,
    `delete_template` and `set_template_value`. Unlike the `template` module, they publish
    their event from inside the `with` block, so an exception out of the bus makes the
    unit of work roll back. The fresh id and the clock reading are parameters.

    `set_template_value` writes the changed entity back with `templates.create`. On the
    SQLAlchemy repository, `create` is insert-if-absent, so the changed template is never
    stored (`SetValueTxAsWritten`, `SetValueAsWrittenLosesUpdate`); the rest of the model
    uses the write-back through `update` (`SetValueTx`). On the in-memory repository of
    the tests, `get` returns the stored object itself, which the service changes in place,
    so there the write-back is not needed (`SetTemplateValueOnFakes`). */
module ModuleServices {
  import opened Common
  import opened Messages
  import TextTemplate
  import TextRows
  import TextMemory
  import FakeBus
  import opened UnitOfWork
  import opened Bus

  /** `OutputTemplate`: the id and timestamp of the new entity. */
  datatype OutputTemplate = OutputTemplate(id: Id, timestamp: Timestamp)

  /** What a successful `with` block leaves to commit, and the event it publishes. */
  datatype Tx = Tx(table: TextRows.Table, event: Event)

  /** Every row sits under its own id (the primary key). */
  predicate Keyed(w: TextRows.Table) {
    forall id :: id in w ==> w[id].id == id
  }

  /** The entity `create_template` builds: value `None`, version 1. */
  function NewTemplate(id: Id, now: Timestamp): (t: TextTemplate.Record)
    ensures t.id == id && t.value == Null && t.timestamp == now && t.version == 1 && t.messages == []
  {
    TextTemplate.Record(id, Null, now, TextTemplate.InitialVersion, [])
  }

  // ---------------------------------------------------------------------------
  // The transactions, on the committed table

  /** `create_template`: insert-if-absent never raises. */
  function CreateTx(w: TextRows.Table, id: Id, now: Timestamp): Tx {
    Tx(TextRows.Created(w, NewTemplate(id, now)), TemplateCreated(id, now))
  }

  /** `delete_template`. */
  function DeleteTx(w: TextRows.Table, id: Id): Result<Tx> {
    match TextRows.Deleted(w, id)
    case Err(e) => Err(e)
    case Ok(w') => Ok(Tx(w', TemplateDeleted(id)))
  }

  /** `set_template_value` with the write-back through `update`. */
  function SetValueTx(w: TextRows.Table, id: Id, v: TextValue, now: Timestamp): Result<Tx> {
    match TextRows.Fetched(w, id)
    case Err(e) => Err(e)
    case Ok(t) =>
      match TextTemplate.Refreshed(t, v, now)
      case Err(e) => Err(e)
      case Ok(t') =>
        match TextRows.Updated(w, t')
        case Err(e) => Err(e)
        case Ok(w') => Ok(Tx(w', TemplateValueSet(t'.id, Textual(v))))
  }

  /** `set_template_value` as written: the write-back goes through `create`. */
  function SetValueTxAsWritten(w: TextRows.Table, id: Id, v: TextValue, now: Timestamp): Result<Tx> {
    match TextRows.Fetched(w, id)
    case Err(e) => Err(e)
    case Ok(t) =>
      match TextTemplate.Refreshed(t, v, now)
      case Err(e) => Err(e)
      case Ok(t') => Ok(Tx(TextRows.Created(w, t'), TemplateValueSet(t'.id, Textual(v))))
  }

  /** `set_template_value` with `vs[i]` at clock reading `nows[i]`, one committed call
      after the other, stopping at the first exception. */
  function SetValueAll(w: TextRows.Table, id: Id, vs: seq<TextValue>, nows: seq<Timestamp>): Result<TextRows.Table>
    requires |vs| == |nows|
    decreases |vs|
  {
    if vs == [] then Ok(w)
    else match SetValueTx(w, id, vs[0], nows[0])
      case Err(e) => Err(e)
      case Ok(tx) => SetValueAll(tx.table, id, vs[1..], nows[1..])
  }

  /** A new id is stored with value `None`, version 1 and the creation time; an id that is
      already stored keeps its row. The other rows are untouched. */
  lemma CreateEffect(w: TextRows.Table, id: Id, now: Timestamp, other: Id)
    ensures id !in w ==> TextRows.Fetched(CreateTx(w, id, now).table, id) == Ok(NewTemplate(id, now))
    ensures id in w ==> CreateTx(w, id, now).table == w
    ensures other != id ==> TextRows.Fetched(CreateTx(w, id, now).table, other) == TextRows.Fetched(w, other)
    ensures Keyed(w) ==> Keyed(CreateTx(w, id, now).table)
    ensures CreateTx(w, id, now).event == TemplateCreated(id, now)
  {
    TextRows.FetchAfterWrite(w, NewTemplate(id, now));
  }

  /** Deleting removes exactly that id and publishes `TemplateDeleted`; an absent id
      raises TemplateDoesNotExist. */
  lemma DeleteEffect(w: TextRows.Table, id: Id, other: Id)
    ensures DeleteTx(w, id).Ok? <==> id in w
    ensures id !in w ==> DeleteTx(w, id) == Err(TemplateDoesNotExist)
    ensures id in w ==> TextRows.Fetched(DeleteTx(w, id).value.table, id) == Err(TemplateDoesNotExist) &&
                        DeleteTx(w, id).value.event == TemplateDeleted(id) &&
                        (other != id ==> TextRows.Fetched(DeleteTx(w, id).value.table, other) == TextRows.Fetched(w, other))
  {
  }

  /** A valid value on a stored id is stored with version + 1 and the new timestamp, and
      `TemplateValueSet` carries the id and the value; an absent id raises
      TemplateDoesNotExist and an invalid value InvalidTemplateValue. */
  lemma SetValueEffect(w: TextRows.Table, id: Id, v: TextValue, now: Timestamp, other: Id)
    requires Keyed(w)
    ensures SetValueTx(w, id, v, now).Ok? <==> id in w && TextTemplate.Acceptable(v)
    ensures id !in w ==> SetValueTx(w, id, v, now) == Err(TemplateDoesNotExist)
    ensures id in w && !TextTemplate.Acceptable(v) ==> SetValueTx(w, id, v, now) == Err(InvalidTemplateValue)
    ensures SetValueTx(w, id, v, now).Ok? ==>
              var t := TextRows.Fetched(w, id).value;
              var tx := SetValueTx(w, id, v, now).value;
              TextRows.Fetched(tx.table, id) == Ok(t.(value := v, version := t.version + 1, timestamp := now)) &&
              tx.event == TemplateValueSet(id, Textual(v)) &&
              (other != id ==> TextRows.Fetched(tx.table, other) == TextRows.Fetched(w, other)) &&
              Keyed(tx.table)
    ensures SetValueTx(w, id, v, now).Ok? && now > w[id].timestamp ==>
              TextRows.Fetched(SetValueTx(w, id, v, now).value.table, id).value.timestamp > w[id].timestamp
  {
    if id in w && TextTemplate.Acceptable(v) {
      var t' := TextTemplate.Refreshed(TextRows.Fetched(w, id).value, v, now).value;
      TextRows.FetchAfterWrite(w, t');
    }
  }

  /** The write-back as written stores nothing: the committed table is the one before,
      so the stored version and value do not move, while `TemplateValueSet` is still
      published. The write-back through `update` stores the new version. */
  lemma SetValueAsWrittenLosesUpdate(w: TextRows.Table, id: Id, v: TextValue, now: Timestamp)
    requires Keyed(w) && id in w && TextTemplate.Acceptable(v)
    ensures SetValueTxAsWritten(w, id, v, now) == Ok(Tx(w, TemplateValueSet(id, Textual(v))))
    ensures TextRows.Fetched(SetValueTx(w, id, v, now).value.table, id).value.version ==
            TextRows.Fetched(SetValueTxAsWritten(w, id, v, now).value.table, id).value.version + 1
  {
    var t' := TextTemplate.Refreshed(TextRows.Fetched(w, id).value, v, now).value;
    TextRows.CreateKeepsStoredRow(w, t');
    SetValueEffect(w, id, v, now, id);
  }

  /** k committed sets of valid values on a stored id raise the stored version by k and
      leave the last value and the last clock reading: the stored template is the one the
      entity reaches with `set_template_value` for each value in turn. */
  lemma {:induction false} SetValueAllRaisesVersion(w: TextRows.Table, id: Id, vs: seq<TextValue>, nows: seq<Timestamp>)
    requires Keyed(w) && id in w && |vs| == |nows|
    requires forall i :: 0 <= i < |vs| ==> TextTemplate.Acceptable(vs[i])
    ensures SetValueAll(w, id, vs, nows).Ok?
    ensures var t := TextRows.Fetched(w, id).value;
            var r := TextRows.Fetched(SetValueAll(w, id, vs, nows).value, id);
            r == TextTemplate.RefreshedAll(t, vs, nows) && r.Ok? &&
            r.value.version == t.version + |vs| &&
            (vs != [] ==> r.value.value == vs[|vs| - 1] && r.value.timestamp == nows[|nows| - 1])
    decreases |vs|
  {
    var t := TextRows.Fetched(w, id).value;
    TextTemplate.RefreshedAllRaisesVersion(t, vs, nows);
    if vs != [] {
      SetValueEffect(w, id, vs[0], nows[0], id);
      var w1 := SetValueTx(w, id, vs[0], nows[0]).value.table;
      assert vs[1..] == [] ==> vs[|vs| - 1] == vs[0] && nows[|nows| - 1] == nows[0];
      assert forall i :: 0 <= i < |vs| - 1 ==> vs[1..][i] == vs[i + 1];
      SetValueAllRaisesVersion(w1, id, vs[1..], nows[1..]);
      assert TextRows.Fetched(w1, id).value == TextTemplate.Refreshed(t, vs[0], nows[0]).value;
    }
  }

  /** Two sets in sequence on a template at version 1 leave version 3 and the second
      value, and each publishes one `TemplateValueSet`, for which the test bus sends one
      email. With the write-back as written, the stored version stays 1. */
  lemma TwoSets(w: TextRows.Table, id: Id, v1: TextValue, v2: TextValue, now1: Timestamp, now2: Timestamp)
    requires Keyed(w) && id in w && TextRows.Fetched(w, id).value.version == 1
    requires TextTemplate.Acceptable(v1) && TextTemplate.Acceptable(v2)
    ensures SetValueTx(w, id, v1, now1).Ok?
    ensures var tx1 := SetValueTx(w, id, v1, now1).value;
            SetValueTx(tx1.table, id, v2, now2).Ok? &&
            var tx2 := SetValueTx(tx1.table, id, v2, now2).value;
            var t := TextRows.Fetched(tx2.table, id).value;
            t.version == 3 && t.value == v2 &&
            FakeBus.EmailsForAll([Ev(tx1.event), Ev(tx2.event)]) == 2
    ensures var tx1 := SetValueTxAsWritten(w, id, v1, now1).value;
            SetValueTxAsWritten(tx1.table, id, v2, now2).Ok? &&
            TextRows.Fetched(SetValueTxAsWritten(tx1.table, id, v2, now2).value.table, id).value.version == 1
  {
    SetValueEffect(w, id, v1, now1, id);
    var tx1 := SetValueTx(w, id, v1, now1).value;
    SetValueEffect(tx1.table, id, v2, now2, id);
    var tx2 := SetValueTx(tx1.table, id, v2, now2).value;
    FakeBus.EmailsForAllBounds([Ev(tx1.event), Ev(tx2.event)]);
    SetValueAsWrittenLosesUpdate(w, id, v1, now1);
    SetValueAsWrittenLosesUpdate(w, id, v2, now2);
  }

  // ---------------------------------------------------------------------------
  // The services on the SQLAlchemy unit of work and the message bus

  /** The exception a bus status carries out of `handle`. */
  function ErrorOf(s: Status): (e: Option<Error>)
    ensures e.None? <==> s.Done?
    ensures s.Raised? ==> e == Some(s.error)
  {
    if s.Done? then None else Some(s.error)
  }

  /** The bus handled `messages` from the state it had before the call, ending with
      `status`. */
  twostate predicate Published(bus: MessageBus, messages: seq<Item>, status: Status)
    reads bus
  {
    var s := Handled(bus.config, old(bus.queue), messages, old(bus.calls), old(bus.fuel));
    bus.queue == s.queue && bus.calls == s.calls && bus.fuel == s.fuel && status == s.status
  }

  /** The unit of work was left with `exc`: `table` is committed exactly when nothing was
      raised, and the session saw the calls of `__exit__`. */
  twostate predicate Settled(uow: SqlUnitOfWork<TextRows.Row>, table: TextRows.Table, exc: Option<Error>)
    reads uow
  {
    uow.durable == (if exc.None? then table else old(uow.durable)) &&
    uow.log == old(uow.log) + ExitCalls(exc)
  }

  /** `create_template`: the new entity is committed unless the bus raises, and the
      output describes it. */
  method CreateTemplate(uow: SqlUnitOfWork<TextRows.Row>, bus: MessageBus, freshId: Id, now: Timestamp)
    returns (r: Result<OutputTemplate>)
    modifies uow, uow.session, bus
    ensures var tx := CreateTx(old(uow.durable), freshId, now);
            exists status :: Published(bus, [Ev(tx.event)], status) &&
                             Settled(uow, tx.table, ErrorOf(status)) &&
                             r == if status.Done? then Ok(OutputTemplate(freshId, now)) else Err(status.error)
  {
    var template := new TextTemplate.Template(freshId, now, TextTemplate.InitialVersion);
    var output := OutputTemplate(template.id, template.timestamp);
    var self := uow.Enter();
    var session := uow.session;
    TextRows.Create(session, template);
    var status := bus.Handle([Ev(TemplateCreated(template.id, template.timestamp))]);
    assert Published(bus, [Ev(TemplateCreated(freshId, now))], status);
    var exc := ErrorOf(status);
    ghost var working := session.working;
    var raised := uow.Exit(exc);
    ExitEffect(Store(old(uow.durable), working, false), exc);
    r := if raised.Some? then Err(raised.value) else Ok(output);
  }

  /** `delete_template`: an absent id raises TemplateDoesNotExist with nothing published;
      otherwise the row is gone once the bus has handled `TemplateDeleted` without
      raising. */
  method DeleteTemplate(uow: SqlUnitOfWork<TextRows.Row>, bus: MessageBus, id: Id) returns (o: Outcome)
    modifies uow, uow.session, bus
    ensures var tx := DeleteTx(old(uow.durable), id);
            (tx.Err? ==> o == Fail(tx.error) && unchanged(bus) && Settled(uow, old(uow.durable), Some(tx.error))) &&
            (tx.Ok? ==> exists status :: Published(bus, [Ev(tx.value.event)], status) &&
                                         Settled(uow, tx.value.table, ErrorOf(status)) &&
                                         o == if status.Done? then Pass else Fail(status.error))
  {
    var self := uow.Enter();
    var session := uow.session;
    var exc: Option<Error> := None;
    var deleted := TextRows.Delete(session, id);
    if deleted.Fail? {
      exc := Some(deleted.error);
    } else {
      var status := bus.Handle([Ev(TemplateDeleted(id))]);
      assert Published(bus, [Ev(TemplateDeleted(id))], status);
      exc := ErrorOf(status);
    }
    ghost var working := session.working;
    var raised := uow.Exit(exc);
    ExitEffect(Store(old(uow.durable), working, false), exc);
    o := if raised.Some? then Fail(raised.value) else Pass;
  }

  /** `set_template_value` with the write-back through `update`: an absent id or an
      invalid value raises with nothing published and nothing committed; otherwise the
      new state is committed once the bus has handled `TemplateValueSet` without
      raising. */
  method SetTemplateValue(uow: SqlUnitOfWork<TextRows.Row>, bus: MessageBus, id: Id, v: TextValue, now: Timestamp)
    returns (o: Outcome)
    modifies uow, uow.session, bus
    ensures var tx := SetValueTx(old(uow.durable), id, v, now);
            (tx.Err? ==> o == Fail(tx.error) && unchanged(bus) && Settled(uow, old(uow.durable), Some(tx.error))) &&
            (tx.Ok? ==> exists status :: Published(bus, [Ev(tx.value.event)], status) &&
                                         Settled(uow, tx.value.table, ErrorOf(status)) &&
                                         o == if status.Done? then Pass else Fail(status.error))
  {
    var self := uow.Enter();
    var session := uow.session;
    var exc: Option<Error> := None;
    var got := TextRows.Get(session, id);
    if got.Err? {
      exc := Some(got.error);
    } else {
      var template := got.value;
      var setResult := TextTemplate.SetTemplateValue(template, v, now);
      if setResult.Fail? {
        exc := Some(setResult.error);
      } else {
        var updated := TextRows.Update(session, template);
        if updated.Fail? {
          exc := Some(updated.error);
        } else {
          var status := bus.Handle([Ev(TemplateValueSet(template.id, Textual(v)))]);
          assert Published(bus, [Ev(SetValueTx(old(uow.durable), id, v, now).value.event)], status);
          exc := ErrorOf(status);
        }
      }
    }
    ghost var working := session.working;
    var raised := uow.Exit(exc);
    ExitEffect(Store(old(uow.durable), working, false), exc);
    o := if raised.Some? then Fail(raised.value) else Pass;
  }

  /** `set_template_value` as written, with the write-back through `create`: the same
      protocol, over `SetValueTxAsWritten`. */
  method SetTemplateValueAsWritten(uow: SqlUnitOfWork<TextRows.Row>, bus: MessageBus, id: Id, v: TextValue, now: Timestamp)
    returns (o: Outcome)
    modifies uow, uow.session, bus
    ensures var tx := SetValueTxAsWritten(old(uow.durable), id, v, now);
            (tx.Err? ==> o == Fail(tx.error) && unchanged(bus) && Settled(uow, old(uow.durable), Some(tx.error))) &&
            (tx.Ok? ==> exists status :: Published(bus, [Ev(tx.value.event)], status) &&
                                         Settled(uow, tx.value.table, ErrorOf(status)) &&
                                         o == if status.Done? then Pass else Fail(status.error))
  {
    var self := uow.Enter();
    var session := uow.session;
    var exc: Option<Error> := None;
    var got := TextRows.Get(session, id);
    if got.Err? {
      exc := Some(got.error);
    } else {
      var template := got.value;
      var setResult := TextTemplate.SetTemplateValue(template, v, now);
      if setResult.Fail? {
        exc := Some(setResult.error);
      } else {
        TextRows.Create(session, template);
        var status := bus.Handle([Ev(TemplateValueSet(template.id, Textual(v)))]);
        assert Published(bus, [Ev(SetValueTxAsWritten(old(uow.durable), id, v, now).value.event)], status);
        exc := ErrorOf(status);
      }
    }
    ghost var working := session.working;
    var raised := uow.Exit(exc);
    ExitEffect(Store(old(uow.durable), working, false), exc);
    o := if raised.Some? then Fail(raised.value) else Pass;
  }

  // ---------------------------------------------------------------------------
  // `set_template_value` on the in-memory unit of work and bus of the tests

  /** The tail of `set_template_value` on the fakes: `create` of the stored object keeps
      the same set, and `handle` of its `TemplateValueSet` sends one email. */
  method StoreBackAndPublish(repo: TextMemory.FakeTemplateRepository, bus: FakeBus.FakeMessageBus,
                             template: TextTemplate.Template, v: TextValue)
    requires template in repo.templates && TextMemory.UniqueIds(repo.templates)
    modifies repo, bus
    ensures repo.templates == old(repo.templates)
    ensures bus.queue == [] && bus.sentEmails == old(bus.sentEmails) + FakeBus.EmailsForAll(old(bus.queue)) + 1
  {
    TextMemory.CreateStoredIsNoOp(repo.templates, template);
    repo.Create(template);
    ghost var q := bus.queue;
    var event := Ev(TemplateValueSet(template.id, Textual(v)));
    bus.Handle([event]);
    FakeBus.EmailsForAllAppend(q, [event]);
    FakeBus.EmailsForAllBounds([event]);
  }

  /** `set_template_value` on `FakeTemplateUnitOfWork` and `FakeMessageBus`. `get` returns
      the stored object, which `set_template_value` changes in place, and `create` of that
      object keeps the same set. With unique ids: an absent id or an invalid value raises
      with no object changed and no email sent; otherwise the stored template moves to
      `Refreshed`, every other one stays as it was, and one email is sent. Nothing is ever
      committed. */
  method SetTemplateValueOnFakes(uow: TextMemory.FakeTemplateUnitOfWork, bus: FakeBus.FakeMessageBus,
                                 id: Id, v: TextValue, now: Timestamp) returns (o: Outcome)
    requires TextMemory.UniqueIds(uow.templates.templates)
    modifies uow.templates, uow.templates.templates, bus
    ensures uow.templates.templates == old(uow.templates.templates) && uow.committed == old(uow.committed)
    ensures TextMemory.UniqueIds(uow.templates.templates)
    ensures o.Pass? <==> TextMemory.HasId(old(uow.templates.templates), id) && TextTemplate.Acceptable(v)
    ensures !TextMemory.HasId(old(uow.templates.templates), id) ==> o == Fail(TemplateDoesNotExist)
    ensures TextMemory.HasId(old(uow.templates.templates), id) && !TextTemplate.Acceptable(v) ==> o == Fail(InvalidTemplateValue)
    ensures o.Fail? ==> unchanged(bus)
    ensures o.Pass? ==> bus.queue == [] && bus.sentEmails == old(bus.sentEmails) + FakeBus.EmailsForAll(old(bus.queue)) + 1
    ensures forall e :: e in old(uow.templates.templates) && e.id != id ==> e.Snapshot() == old(e.Snapshot())
    ensures forall e :: e in old(uow.templates.templates) && e.id == id ==>
              e.Snapshot() == if o.Pass? then TextTemplate.Refreshed(old(e.Snapshot()), v, now).value else old(e.Snapshot())
  {
    var self := uow.Enter();
    var exc: Option<Error> := None;
    var got := uow.templates.Get(id);
    if got.Err? {
      exc := Some(got.error);
    } else {
      var template := got.value;
      ghost var stored := uow.templates.templates;
      assert forall e :: e in stored && e.id == id ==> e == template;
      var setResult := TextTemplate.SetTemplateValue(template, v, now);
      assert forall e :: e in stored && e != template ==> e.Snapshot() == old(e.Snapshot());
      if setResult.Fail? {
        exc := Some(setResult.error);
      } else {
        StoreBackAndPublish(uow.templates, bus, template, v);
      }
    }
    var raised := uow.Exit(exc);
    o := if raised.Some? then Fail(raised.value) else Pass;
  }
}
