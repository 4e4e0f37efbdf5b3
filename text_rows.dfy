/** The SQLAlchemy domain repository of the `template_module` module and its mappers
    between the string `Template` entity and its table row. Unlike the `template` module,
    `create` is insert-if-absent and `update` reports an absent id. */
module TextRows {
  import opened Common
  import opened Messages
  import TextTemplate
  import opened UnitOfWork

  /** `VALUE_NAME_IN_DATABASE`. */
  const ValueKey: string := "value"

  datatype Row = Row(id: Id, valueData: map<string, TextValue>, timestamp: Timestamp, version: int)

  type Table = map<Id, Row>

  /** `_map_template_value_dto_to_dict`: `None` is stored as `None`. */
  function ValueToData(v: TextValue): (d: map<string, TextValue>)
    ensures d.Keys == {ValueKey} && d[ValueKey] == v
  {
    map[ValueKey := if v.Null? then Null else v]
  }

  /** `_map_template_data_dict_to_dto`: `dict.get`, so a missing key reads as `None`. */
  function DataToValue(d: map<string, TextValue>): (v: TextValue)
    ensures ValueKey in d ==> v == d[ValueKey]
    ensures ValueKey !in d ==> v == Null
  {
    if ValueKey in d then d[ValueKey] else Null
  }

  /** Every value, `None` included, survives the trip to the database and back, and a
      dictionary without the key reads back as `None`. */
  lemma ValueRoundTrip(v: TextValue, d: map<string, TextValue>)
    ensures DataToValue(ValueToData(v)) == v
    ensures ValueKey !in d ==> DataToValue(d) == Null
  {
  }

  /** `_map_template_entity_to_template_db`. */
  function EntityToRow(t: TextTemplate.Record): (r: Row)
    ensures r.id == t.id && r.timestamp == t.timestamp && r.version == t.version
    ensures DataToValue(r.valueData) == t.value
  {
    Row(t.id, ValueToData(t.value), t.timestamp, t.version)
  }

  /** `_map_template_db_to_template_entity`: the value is loaded without validation. */
  function RowToEntity(r: Row): (t: TextTemplate.Record)
    ensures t.id == r.id && t.timestamp == r.timestamp && t.version == r.version
    ensures t.value == DataToValue(r.valueData) && t.messages == []
  {
    TextTemplate.Record(r.id, DataToValue(r.valueData), r.timestamp, r.version, [])
  }

  /** Entity to row and back keeps id, value, timestamp and version. */
  lemma EntityRoundTrip(t: TextTemplate.Record)
    ensures RowToEntity(EntityToRow(t)) == t.(messages := [])
  {
  }

  /** `create`: a row is added only when none has that id; otherwise nothing changes. */
  function Created(w: Table, t: TextTemplate.Record): (r: Table)
    ensures t.id in w ==> r == w
    ensures t.id !in w ==> r == w[t.id := EntityToRow(t)]
  {
    if t.id in w then w else w[t.id := EntityToRow(t)]
  }

  /** `get`. */
  function Fetched(w: Table, id: Id): (r: Result<TextTemplate.Record>)
    ensures r.Ok? <==> id in w
    ensures r.Err? ==> r.error == TemplateDoesNotExist
    ensures r.Ok? ==> r.value == RowToEntity(w[id])
  {
    if id in w then Ok(RowToEntity(w[id])) else Err(TemplateDoesNotExist)
  }

  /** `update`: `scalar_one` raises for an absent id; otherwise the mapped columns are
      overwritten. */
  function Updated(w: Table, t: TextTemplate.Record): (r: Result<Table>)
    ensures r.Ok? <==> t.id in w
    ensures r.Err? ==> r.error == TemplateDoesNotExist
    ensures r.Ok? ==> r.value == w[t.id := EntityToRow(t)]
  {
    if t.id in w then Ok(w[t.id := EntityToRow(t)]) else Err(TemplateDoesNotExist)
  }

  /** `delete`. */
  function Deleted(w: Table, id: Id): (r: Result<Table>)
    ensures r.Ok? <==> id in w
    ensures r.Err? ==> r.error == TemplateDoesNotExist
    ensures r.Ok? ==> r.value == w - {id}
  {
    if id in w then Ok(w - {id}) else Err(TemplateDoesNotExist)
  }

  /** Creating an entity whose id is stored reads back the stored row, not the entity:
      a changed value or version is not written. */
  lemma CreateKeepsStoredRow(w: Table, t: TextTemplate.Record)
    requires t.id in w
    ensures Fetched(Created(w, t), t.id) == Fetched(w, t.id)
  {
  }

  /** Creating a new id, or updating a stored one, reads back as the entity. */
  lemma FetchAfterWrite(w: Table, t: TextTemplate.Record)
    ensures t.id !in w ==> Fetched(Created(w, t), t.id) == Ok(t.(messages := []))
    ensures t.id in w ==> Fetched(Updated(w, t).value, t.id) == Ok(t.(messages := []))
  {
    EntityRoundTrip(t);
  }

  // ---------------------------------------------------------------------------
  // The repository on a session

  /** `SqlAlchemyTemplateDomainRepository.create`. */
  method Create(session: Session<Row>, t: TextTemplate.Template)
    modifies session
    ensures session.working == Created(old(session.working), t.Snapshot())
    ensures session.closed == old(session.closed)
  {
    if t.id !in session.working {
      session.working := session.working[t.id := EntityToRow(t.Snapshot())];
    }
  }

  /** `get`: a new entity object, separate from the row. */
  method Get(session: Session<Row>, id: Id) returns (r: Result<TextTemplate.Template>)
    ensures r.Ok? <==> Fetched(session.working, id).Ok?
    ensures r.Err? ==> r.error == TemplateDoesNotExist
    ensures r.Ok? ==> fresh(r.value) && r.value.Snapshot() == Fetched(session.working, id).value
  {
    if id !in session.working {
      return Err(TemplateDoesNotExist);
    }
    var row := session.working[id];
    var t := new TextTemplate.Template(row.id, row.timestamp, row.version);
    t.value := DataToValue(row.valueData);
    r := Ok(t);
  }

  /** `update`. */
  method Update(session: Session<Row>, t: TextTemplate.Template) returns (o: Outcome)
    modifies session
    ensures o == Updated(old(session.working), t.Snapshot()).ToOutcome()
    ensures session.working == (if o.Pass? then Updated(old(session.working), t.Snapshot()).value else old(session.working))
    ensures session.closed == old(session.closed)
  {
    if t.id !in session.working {
      return Fail(TemplateDoesNotExist);
    }
    session.working := session.working[t.id := EntityToRow(t.Snapshot())];
    o := Pass;
  }

  /** `delete`. */
  method Delete(session: Session<Row>, id: Id) returns (o: Outcome)
    modifies session
    ensures o == Deleted(old(session.working), id).ToOutcome()
    ensures session.working == (if o.Pass? then Deleted(old(session.working), id).value else old(session.working))
    ensures session.closed == old(session.closed)
  {
    if id !in session.working {
      return Fail(TemplateDoesNotExist);
    }
    session.working := session.working - {id};
    o := Pass;
  }
}
