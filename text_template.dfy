/** The string `Template` aggregate of the `template_module` module: a value that must
    be a non-empty string, a version counter, and the free function `set_template_value`
    that also refreshes the timestamp. */
module TextTemplate {
  import opened Common
  import opened Messages

  /** `INITIAL_TEMPLATE_VERSION`. */
  const InitialVersion: int := 1

  /** `vars(self)`. */
  datatype Record = Record(id: Id, value: TextValue, timestamp: Timestamp, version: int, messages: seq<Item>)

  /** `isinstance(value.value, str) and len(value.value)`. */
  predicate Acceptable(v: TextValue) {
    v.Text? && |v.s| > 0
  }

  /** The template after `Template.set_value(v)`; the timestamp is not touched. */
  function Assigned(t: Record, v: TextValue): (r: Result<Record>)
    ensures r.Ok? <==> Acceptable(v)
    ensures r.Err? ==> r.error == InvalidTemplateValue
    ensures r.Ok? ==> r.value.value == v && r.value.version == t.version + 1
    ensures r.Ok? ==> r.value.id == t.id && r.value.timestamp == t.timestamp && r.value.messages == t.messages
  {
    if Acceptable(v) then Ok(t.(value := v, version := t.version + 1)) else Err(InvalidTemplateValue)
  }

  /** The template after the free function `set_template_value(t, v)` run at clock
      reading `now`: the timestamp moves only once the set has succeeded. */
  function Refreshed(t: Record, v: TextValue, now: Timestamp): (r: Result<Record>)
    ensures r.Ok? <==> Acceptable(v)
    ensures r.Err? ==> r.error == InvalidTemplateValue
    ensures r.Ok? ==> r.value.value == v && r.value.version == t.version + 1 && r.value.timestamp == now
    ensures r.Ok? ==> r.value.id == t.id && r.value.messages == t.messages
  {
    match Assigned(t, v)
    case Err(e) => Err(e)
    case Ok(t') => Ok(t'.(timestamp := now))
  }

  /** The template after `set_template_value` with `vs[i]` at clock reading `nows[i]`,
      for each i in turn, stopping at the first exception. */
  function RefreshedAll(t: Record, vs: seq<TextValue>, nows: seq<Timestamp>): Result<Record>
    requires |vs| == |nows|
    decreases |vs|
  {
    if vs == [] then Ok(t)
    else match Refreshed(t, vs[0], nows[0])
      case Err(e) => Err(e)
      case Ok(t') => RefreshedAll(t', vs[1..], nows[1..])
  }

  /** k successful sets raise the version by k, leave the last value and the last clock
      reading, and keep the id. */
  lemma {:induction false} RefreshedAllRaisesVersion(t: Record, vs: seq<TextValue>, nows: seq<Timestamp>)
    requires |vs| == |nows|
    requires forall i :: 0 <= i < |vs| ==> Acceptable(vs[i])
    ensures RefreshedAll(t, vs, nows).Ok?
    ensures RefreshedAll(t, vs, nows).value.version == t.version + |vs|
    ensures RefreshedAll(t, vs, nows).value.id == t.id
    ensures vs != [] ==> RefreshedAll(t, vs, nows).value.value == vs[|vs| - 1]
    ensures vs != [] ==> RefreshedAll(t, vs, nows).value.timestamp == nows[|nows| - 1]
    decreases |vs|
  {
    if vs != [] {
      RefreshedAllRaisesVersion(Refreshed(t, vs[0], nows[0]).value, vs[1..], nows[1..]);
    }
  }

  /** The live entity. */
  class Template {
    var id: Id
    var value: TextValue
    var timestamp: Timestamp
    var version: int
    var messages: seq<Item>

    function Snapshot(): Record
      reads this
    {
      Record(id, value, timestamp, version, messages)
    }

    /** A new template holds value `None` and the given version. */
    constructor (id: Id, timestamp: Timestamp, version: int)
      ensures Snapshot() == Record(id, Null, timestamp, version, [])
    {
      this.id := id;
      this.value := Null;
      this.timestamp := timestamp;
      this.version := version;
      this.messages := [];
    }

    /** `Template.set_value`: `""`, `None` and non-strings are refused with nothing changed. */
    method SetValue(v: TextValue) returns (o: Outcome)
      modifies this
      ensures o == Assigned(old(Snapshot()), v).ToOutcome()
      ensures Snapshot() == if o.Pass? then Assigned(old(Snapshot()), v).value else old(Snapshot())
    {
      if v.Text? && |v.s| > 0 {
        value := v;
        version := version + 1;
        return Pass;
      }
      o := Fail(InvalidTemplateValue);
    }

    /** `__eq__`: all attributes are compared. */
    predicate Equals(other: Template)
      reads this, other
    {
      Snapshot() == other.Snapshot()
    }

    /** `__hash__`: a function of the id alone. */
    function Hash(): int
      reads this
    {
      id
    }
  }

  /** `set_template_value(template, value)` with the clock reading `now` passed in: the
      timestamp is assigned only after `set_value` returned. */
  method SetTemplateValue(t: Template, v: TextValue, now: Timestamp) returns (o: Outcome)
    modifies t
    ensures o == Refreshed(old(t.Snapshot()), v, now).ToOutcome()
    ensures t.Snapshot() == if o.Pass? then Refreshed(old(t.Snapshot()), v, now).value else old(t.Snapshot())
  {
    o := t.SetValue(v);
    if o.Fail? {
      return;
    }
    t.timestamp := now;
  }
}
