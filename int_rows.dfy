/** The SQLAlchemy domain repository of the `template` module and its mappers between the
    integer `Template` entity and its table row. The table is the session's working map
    from ids to rows; the value is stored in a JSON object under one key. */
module IntRows {
  import opened Common
  import opened Messages
  import IntTemplate
  import opened UnitOfWork

  /** `VALUE_NAME_IN_DATABASE`. */
  const ValueKey: string := "value"

  /** A row of the templates table. Timestamps are stored as given (the UTC and local
      conversions are taken as the identity). */
  datatype Row = Row(id: Id, valueData: map<string, int>, timestamp: Timestamp, version: int)

  type Table = map<Id, Row>

  /** `_map_template_value_dto_to_dict`: a value of `None` is stored as 0. */
  function ValueToData(v: Option<int>): (d: map<string, int>)
    ensures d.Keys == {ValueKey}
    ensures d[ValueKey] == (if v.None? then 0 else v.value)
  {
    map[ValueKey := if v.Some? then v.value else 0]
  }

  /** `_map_template_data_dict_to_dto`: a dictionary without the key raises KeyError. */
  function DataToValue(d: map<string, int>): (r: Result<int>)
    ensures r.Ok? <==> ValueKey in d
    ensures r.Ok? ==> r.value == d[ValueKey]
    ensures r.Err? ==> r.error == KeyError
  {
    if ValueKey in d then Ok(d[ValueKey]) else Err(KeyError)
  }

  /** An integer value survives the trip to the database and back. */
  lemma ValueRoundTrip(v: int)
    ensures DataToValue(ValueToData(Some(v))) == Ok(v)
    ensures DataToValue(ValueToData(None)) == Ok(0)
  {
  }

  /** `_map_template_entity_to_template_db`. */
  function EntityToRow(t: IntTemplate.Record): (r: Row)
    ensures r.id == t.id && r.version == t.version && r.timestamp == t.timestamp
    ensures DataToValue(r.valueData) == Ok(t.value)
  {
    Row(t.id, ValueToData(Some(t.value)), t.timestamp, t.version)
  }

  /** `_map_template_db_to_template_entity`: a new entity whose value is loaded directly,
      without `set_value`'s validation and without touching the version. */
  function RowToEntity(r: Row): (t: Result<IntTemplate.Record>)
    ensures t.Ok? <==> ValueKey in r.valueData
    ensures t.Ok? ==> t.value == IntTemplate.Record(r.id, r.valueData[ValueKey], r.timestamp, r.version, [])
    ensures t.Err? ==> t.error == KeyError
  {
    match DataToValue(r.valueData)
    case Err(e) => Err(e)
    case Ok(v) => Ok(IntTemplate.Record(r.id, v, r.timestamp, r.version, []))
  }

  /** Entity to row and back gives the entity with its pending messages dropped, even a
      value `set_value` would refuse. */
  lemma EntityRoundTrip(t: IntTemplate.Record)
    ensures RowToEntity(EntityToRow(t)) == Ok(t.(messages := []))
  {
  }

  /** A row written by the mapper reads back to the row it came from. */
  lemma RowRoundTrip(r: Row)
    requires r.valueData.Keys == {ValueKey}
    ensures RowToEntity(r).Ok? && EntityToRow(RowToEntity(r).value) == r
  {
  }

  // ---------------------------------------------------------------------------
  // The repository's effect on the session's table

  /** `create`: the row is added to the session. A second row with the same id violates
      the primary key (IntegrityError). */
  function Created(w: Table, t: IntTemplate.Record): (r: Result<Table>)
    ensures r.Ok? <==> t.id !in w
    ensures r.Err? ==> r.error == IntegrityError
    ensures r.Ok? ==> r.value == w[t.id := EntityToRow(t)]
  {
    if t.id in w then Err(IntegrityError) else Ok(w[t.id := EntityToRow(t)])
  }

  /** `get`: the entity mapped from the row with that id. */
  function Fetched(w: Table, id: Id): (r: Result<IntTemplate.Record>)
    ensures id !in w ==> r == Err(TemplateDoesNotExist)
    ensures id in w ==> r == RowToEntity(w[id])
  {
    if id in w then RowToEntity(w[id]) else Err(TemplateDoesNotExist)
  }

  /** `update`: the mapped columns of the row with the entity's id are overwritten. For an
      absent id `.scalar()` yields `None` and the first `setattr` on it raises
      AttributeError. */
  function Updated(w: Table, t: IntTemplate.Record): (r: Result<Table>)
    ensures r.Ok? <==> t.id in w
    ensures r.Err? ==> r.error == AttributeError
    ensures r.Ok? ==> r.value == w[t.id := EntityToRow(t)]
  {
    if t.id in w then Ok(w[t.id := EntityToRow(t)]) else Err(AttributeError)
  }

  /** `delete`: the row with that id is removed. */
  function Deleted(w: Table, id: Id): (r: Result<Table>)
    ensures r.Ok? <==> id in w
    ensures r.Err? ==> r.error == TemplateDoesNotExist
    ensures r.Ok? ==> r.value == w - {id}
  {
    if id in w then Ok(w - {id}) else Err(TemplateDoesNotExist)
  }

  /** What was created reads back as the entity (without pending messages); the other
      rows are untouched. */
  lemma FetchAfterCreate(w: Table, t: IntTemplate.Record, other: Id)
    requires t.id !in w
    ensures Fetched(Created(w, t).value, t.id) == Ok(t.(messages := []))
    ensures other != t.id ==> Fetched(Created(w, t).value, other) == Fetched(w, other)
  {
    EntityRoundTrip(t);
  }

  /** Reading back after an update gives the written entity. */
  lemma FetchAfterUpdate(w: Table, t: IntTemplate.Record, other: Id)
    requires t.id in w
    ensures Fetched(Updated(w, t).value, t.id) == Ok(t.(messages := []))
    ensures other != t.id ==> Fetched(Updated(w, t).value, other) == Fetched(w, other)
  {
    EntityRoundTrip(t);
  }

  /** After a delete the id is gone and the other rows are untouched. */
  lemma FetchAfterDelete(w: Table, id: Id, other: Id)
    requires id in w
    ensures Fetched(Deleted(w, id).value, id) == Err(TemplateDoesNotExist)
    ensures other != id ==> Fetched(Deleted(w, id).value, other) == Fetched(w, other)
  {
  }

  // ---------------------------------------------------------------------------
  // The repository on a session

  /** `SqlAlchemyTemplatesDomainRepository.create`. */
  method Create(session: Session<Row>, t: IntTemplate.Template) returns (o: Outcome)
    modifies session
    ensures o == Created(old(session.working), t.Snapshot()).ToOutcome()
    ensures session.working == (if o.Pass? then Created(old(session.working), t.Snapshot()).value else old(session.working))
    ensures session.closed == old(session.closed)
  {
    if t.id in session.working {
      return Fail(IntegrityError);
    }
    session.working := session.working[t.id := EntityToRow(t.Snapshot())];
    o := Pass;
  }

  /** `get`: a new entity object, separate from the row. */
  method Get(session: Session<Row>, id: Id) returns (r: Result<IntTemplate.Template>)
    ensures r.Ok? <==> Fetched(session.working, id).Ok?
    ensures r.Err? ==> r.error == Fetched(session.working, id).error
    ensures r.Ok? ==> fresh(r.value) && r.value.Snapshot() == Fetched(session.working, id).value
  {
    if id !in session.working {
      return Err(TemplateDoesNotExist);
    }
    var row := session.working[id];
    match DataToValue(row.valueData)
    case Err(e) =>
      r := Err(e);
    case Ok(v) =>
      var t := new IntTemplate.Template(row.id, row.timestamp, row.version);
      t.value := v;
      r := Ok(t);
  }

  /** `update`. */
  method Update(session: Session<Row>, t: IntTemplate.Template) returns (o: Outcome)
    modifies session
    ensures o == Updated(old(session.working), t.Snapshot()).ToOutcome()
    ensures session.working == (if o.Pass? then Updated(old(session.working), t.Snapshot()).value else old(session.working))
    ensures session.closed == old(session.closed)
  {
    if t.id !in session.working {
      return Fail(AttributeError);
    }
    session.working := session.working[t.id := EntityToRow(t.Snapshot())];
    o := Pass;
  }

  /** `delete`. */
  method Delete(session: Session<Row>, id: Id) returns (o: Outcome)
    modifies session
    ensures o == Deleted(old(session.working), id).ToOutcome()
    ensures session.working == (if o.Pass? then Deleted(old(session.working), id).value else old(session.working))
    ensures session.closed == old(session.closed)
  {
    if id !in session.working {
      return Fail(TemplateDoesNotExist);
    }
    session.working := session.working - {id};
    o := Pass;
  }
}
