/** The command services of the `template_app` application, `create_template` and
    `set_template_value`, over its SQLAlchemy repository and unit of work. The session
    holds the entities' states by id: `save` is `session.add`, and `get` loads the state
    stored under the id. The fresh id and the clock reading are parameters. */
module AppServices {
  import opened Common
  import opened Messages
  import AppTemplate
  import TextTemplate
  import opened UnitOfWork

  type Table = map<Id, AppTemplate.Record>

  /** Every stored state sits under its own id (the primary key). */
  predicate Keyed(w: Table) {
    forall id :: id in w ==> w[id].id == id
  }

  /** `SqlAlchemyTemplateRepository.save`: the session holds the entity's state under its id. */
  function Saved(w: Table, t: AppTemplate.Record): (r: Table)
    ensures t.id in r && r[t.id] == t
    ensures forall id :: id != t.id ==> (id in r <==> id in w) && (id in w ==> r[id] == w[id])
    ensures Keyed(w) ==> Keyed(r)
  {
    w[t.id := t]
  }

  /** `get`: the state stored under the id; the port promises TemplateDoesNotExist for an
      absent id. */
  function Fetched(w: Table, id: Id): (r: Result<AppTemplate.Record>)
    ensures r.Ok? <==> id in w
    ensures r.Err? ==> r.error == TemplateDoesNotExist
    ensures r.Ok? ==> r.value == w[id]
  {
    if id in w then Ok(w[id]) else Err(TemplateDoesNotExist)
  }

  /** The table `create_template` commits, or IntegrityError when a row already has the
      new entity's primary key. */
  function Created(w: Table, id: Id, now: Timestamp): Result<Table> {
    if id in w then Err(IntegrityError) else Ok(Saved(w, AppTemplate.Record(id, None, now)))
  }

  /** The table `set_template_value` commits: get, `entities.set_template_value`, save;
      or the exception the block raised. */
  function ValueSet(w: Table, id: Id, v: TextValue, now: Timestamp): Result<Table> {
    match Fetched(w, id)
    case Err(e) => Err(e)
    case Ok(t) =>
      match AppTemplate.Refreshed(t, v, now)
      case Err(e) => Err(e)
      case Ok(t') => Ok(Saved(w, t'))
  }

  /** A new template is stored with value `None` at the creation time and the other
      templates are untouched; an id already stored raises IntegrityError. */
  lemma CreateStoresNewTemplate(w: Table, id: Id, now: Timestamp, other: Id)
    ensures Created(w, id, now).Ok? <==> id !in w
    ensures id in w ==> Created(w, id, now) == Err(IntegrityError)
    ensures id !in w ==> Fetched(Created(w, id, now).value, id) == Ok(AppTemplate.Record(id, None, now))
    ensures id !in w && other != id ==> Fetched(Created(w, id, now).value, other) == Fetched(w, other)
    ensures Keyed(w) && id !in w ==> Keyed(Created(w, id, now).value)
  {
  }

  /** A valid value on a stored id is stored with the new timestamp (later than the old
      one when the clock moved on); an absent id raises TemplateDoesNotExist and an
      invalid value InvalidTemplateValue, and then nothing is committed. */
  lemma ValueSetEffect(w: Table, id: Id, v: TextValue, now: Timestamp, other: Id)
    requires Keyed(w)
    ensures ValueSet(w, id, v, now).Ok? <==> id in w && TextTemplate.Acceptable(v)
    ensures id !in w ==> ValueSet(w, id, v, now) == Err(TemplateDoesNotExist)
    ensures id in w && !TextTemplate.Acceptable(v) ==> ValueSet(w, id, v, now) == Err(InvalidTemplateValue)
    ensures ValueSet(w, id, v, now).Ok? ==>
              Fetched(ValueSet(w, id, v, now).value, id) == Ok(AppTemplate.Record(id, Some(v), now)) &&
              (other != id ==> Fetched(ValueSet(w, id, v, now).value, other) == Fetched(w, other))
    ensures ValueSet(w, id, v, now).Ok? && now > w[id].timestamp ==>
              ValueSet(w, id, v, now).value[id].timestamp > w[id].timestamp
  {
    if id in w && TextTemplate.Acceptable(v) && now > w[id].timestamp {
      AppTemplate.RefreshedAdvancesClock(w[id], v, now);
    }
  }

  // ---------------------------------------------------------------------------
  // The repository on a session

  /** `save`. */
  method Save(session: Session<AppTemplate.Record>, t: AppTemplate.Template)
    modifies session
    ensures session.working == Saved(old(session.working), t.Snapshot())
    ensures session.closed == old(session.closed)
  {
    session.working := session.working[t.id := t.Snapshot()];
  }

  /** `get`: an entity object holding the stored state. */
  method Get(session: Session<AppTemplate.Record>, id: Id) returns (r: Result<AppTemplate.Template>)
    ensures r.Ok? <==> Fetched(session.working, id).Ok?
    ensures r.Err? ==> r.error == TemplateDoesNotExist
    ensures r.Ok? ==> fresh(r.value) && r.value.Snapshot() == Fetched(session.working, id).value
  {
    if id !in session.working {
      return Err(TemplateDoesNotExist);
    }
    var st := session.working[id];
    var t := new AppTemplate.Template(st.id, st.timestamp);
    t.value := st.value;
    r := Ok(t);
  }

  // ---------------------------------------------------------------------------
  // The services

  /** `create_template(unit_of_work)` with the generated id and clock reading passed in:
      the output describes the new entity, which is committed. Adding a new entity under
      a stored key fails with IntegrityError, and then nothing is committed and nothing
      is returned. */
  method CreateTemplate(uow: SqlUnitOfWork<AppTemplate.Record>, freshId: Id, now: Timestamp)
    returns (r: Result<AppTemplate.Record>)
    modifies uow, uow.session
    ensures var c := Created(old(uow.durable), freshId, now);
            r == (if c.Ok? then Ok(AppTemplate.Record(freshId, None, now)) else Err(c.error)) &&
            uow.durable == (if c.Ok? then c.value else old(uow.durable)) &&
            uow.log == old(uow.log) + ExitCalls(if c.Ok? then None else Some(c.error))
  {
    var template := new AppTemplate.Template(freshId, now);
    var output := template.Snapshot();
    var self := uow.Enter();
    var session := uow.session;
    var exc: Option<Error> := None;
    if freshId in session.working {
      exc := Some(IntegrityError);
    } else {
      Save(session, template);
    }
    ghost var working := session.working;
    var raised := uow.Exit(exc);
    ExitEffect(Store(old(uow.durable), working, false), exc);
    r := if raised.Some? then Err(raised.value) else Ok(output);
  }

  /** `set_template_value(unit_of_work, template_id, value)`: the result of `ValueSet` is
      committed, or the block's exception propagates with the database unchanged. */
  method SetTemplateValue(uow: SqlUnitOfWork<AppTemplate.Record>, id: Id, v: TextValue, now: Timestamp)
    returns (o: Outcome)
    modifies uow, uow.session
    ensures o == ValueSet(old(uow.durable), id, v, now).ToOutcome()
    ensures uow.durable == if o.Pass? then ValueSet(old(uow.durable), id, v, now).value else old(uow.durable)
    ensures uow.log == old(uow.log) + ExitCalls(if o.Pass? then None else Some(o.error))
  {
    var self := uow.Enter();
    var session := uow.session;
    var exc: Option<Error> := None;
    var got := Get(session, id);
    if got.Err? {
      exc := Some(got.error);
    } else {
      var template := got.value;
      var setResult := AppTemplate.SetTemplateValue(template, v, now);
      if setResult.Fail? {
        exc := Some(setResult.error);
      } else {
        Save(session, template);
      }
    }
    ghost var working := session.working;
    var raised := uow.Exit(exc);
    ExitEffect(Store(old(uow.durable), working, false), exc);
    o := if raised.Some? then Fail(raised.value) else Pass;
  }
}
