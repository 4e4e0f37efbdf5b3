/** The `Template` entity of the `template_app` application: no version, a value that is
    either absent or a `TemplateValue` holding a non-empty string, and the free function
    `set_template_value` that refreshes the timestamp. */
module AppTemplate {
  import opened Common
  import opened Messages
  import TextTemplate

  /** `vars(self)`: `value` is `None` until the first successful set. */
  datatype Record = Record(id: Id, value: Option<TextValue>, timestamp: Timestamp)

  /** The entity after `Template.set_value(TemplateValue(v))`, which validates the value
      as the module's string entity does. */
  function Assigned(t: Record, v: TextValue): (r: Result<Record>)
    ensures r.Ok? <==> TextTemplate.Acceptable(v)
    ensures r.Err? ==> r.error == InvalidTemplateValue
    ensures r.Ok? ==> r.value.value == Some(v) && r.value.id == t.id && r.value.timestamp == t.timestamp
  {
    if TextTemplate.Acceptable(v) then Ok(t.(value := Some(v))) else Err(InvalidTemplateValue)
  }

  /** The entity after `set_template_value(t, TemplateValue(v))` at clock reading `now`. */
  function Refreshed(t: Record, v: TextValue, now: Timestamp): (r: Result<Record>)
    ensures r.Ok? <==> TextTemplate.Acceptable(v)
    ensures r.Err? ==> r.error == InvalidTemplateValue
    ensures r.Ok? ==> r.value == Record(t.id, Some(v), now)
  {
    match Assigned(t, v)
    case Err(e) => Err(e)
    case Ok(t') => Ok(t'.(timestamp := now))
  }

  /** With a clock that moves forward, a successful set advances the timestamp, and a
      failed one leaves the whole entity as it was (the method below keeps it). */
  lemma RefreshedAdvancesClock(t: Record, v: TextValue, now: Timestamp)
    requires now > t.timestamp && TextTemplate.Acceptable(v)
    ensures Refreshed(t, v, now).Ok? && Refreshed(t, v, now).value.timestamp > t.timestamp
  {
  }

  class Template {
    var id: Id
    var value: Option<TextValue>
    var timestamp: Timestamp

    function Snapshot(): Record
      reads this
    {
      Record(id, value, timestamp)
    }

    /** A new entity has value `None`. */
    constructor (id: Id, timestamp: Timestamp)
      ensures Snapshot() == Record(id, None, timestamp)
    {
      this.id := id;
      this.value := None;
      this.timestamp := timestamp;
    }

    /** `Template.set_value`: anything but a non-empty string is refused, nothing changed. */
    method SetValue(v: TextValue) returns (o: Outcome)
      modifies this
      ensures o == Assigned(old(Snapshot()), v).ToOutcome()
      ensures Snapshot() == if o.Pass? then Assigned(old(Snapshot()), v).value else old(Snapshot())
    {
      if v.Text? && |v.s| > 0 {
        value := Some(v);
        return Pass;
      }
      o := Fail(InvalidTemplateValue);
    }

    /** `__eq__`: all attributes are compared. */
    predicate Equals(other: Template)
      reads this, other
    {
      Snapshot() == other.Snapshot()
    }

    /** `__hash__`: a function of the id alone. */
    function Hash(): int
      reads this
    {
      id
    }
  }

  /** `set_template_value(template, value)` with the clock reading passed in. */
  method SetTemplateValue(t: Template, v: TextValue, now: Timestamp) returns (o: Outcome)
    modifies t
    ensures o == Refreshed(old(t.Snapshot()), v, now).ToOutcome()
    ensures t.Snapshot() == if o.Pass? then Refreshed(old(t.Snapshot()), v, now).value else old(t.Snapshot())
  {
    o := t.SetValue(v);
    if o.Fail? {
      return;
    }
    t.timestamp := now;
  }
}
