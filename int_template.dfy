/** The integer `Template` aggregate of the `template` module: a value that must stay
    above zero, a version counter bumped by every successful mutation, and a list of
    pending domain messages. */
module IntTemplate {
  import opened Common
  import opened Messages

  /** `INITIAL_TEMPLATE_VERSION`. */
  const InitialVersion: int := 1

  /** The attributes of a template (`vars(self)`), which is what `__eq__` compares. */
  datatype Record = Record(id: Id, value: int, timestamp: Timestamp, version: int, messages: seq<Item>)

  /** The template after `set_value(v)`, or the exception it raises. */
  function Assigned(t: Record, v: int): (r: Result<Record>)
    ensures r.Err? <==> v <= 0
    ensures r.Err? ==> r.error == InvalidTemplateValue
    ensures r.Ok? ==> r.value.value == v && r.value.version == t.version + 1
    ensures r.Ok? ==> r.value.id == t.id && r.value.timestamp == t.timestamp && r.value.messages == t.messages
  {
    if v <= 0 then Err(InvalidTemplateValue) else Ok(t.(value := v, version := t.version + 1))
  }

  /** The template after `subtract_value(amount)`, or the exception it raises. Only the
      difference is checked, so a negative amount is accepted and raises the value. */
  function Subtracted(t: Record, amount: int): (r: Result<Record>)
    ensures r.Err? <==> t.value - amount <= 0
    ensures r.Err? ==> r.error == InvalidTemplateValue
    ensures r.Ok? ==> r.value.value == t.value - amount && r.value.value > 0
    ensures r.Ok? ==> r.value.version == t.version + 1
    ensures r.Ok? ==> r.value.id == t.id && r.value.timestamp == t.timestamp && r.value.messages == t.messages
  {
    var result := t.value - amount;
    if result <= 0 then Err(InvalidTemplateValue) else Ok(t.(value := result, version := t.version + 1))
  }

  /** The template after `set_value` is called with each of `vs` in turn, stopping at
      the first exception. */
  function AssignedAll(t: Record, vs: seq<int>): Result<Record>
    decreases |vs|
  {
    if vs == [] then Ok(t)
    else match Assigned(t, vs[0])
      case Err(e) => Err(e)
      case Ok(t') => AssignedAll(t', vs[1..])
  }

  /** k successful `set_value` calls raise the version by exactly k and leave the last
      value; id, timestamp and messages are untouched. */
  lemma {:induction false} AssignedAllRaisesVersion(t: Record, vs: seq<int>)
    requires forall i :: 0 <= i < |vs| ==> vs[i] > 0
    ensures AssignedAll(t, vs).Ok?
    ensures AssignedAll(t, vs).value.version == t.version + |vs|
    ensures vs != [] ==> AssignedAll(t, vs).value.value == vs[|vs| - 1]
    ensures vs == [] ==> AssignedAll(t, vs).value == t
    ensures AssignedAll(t, vs).value.id == t.id && AssignedAll(t, vs).value.timestamp == t.timestamp
    decreases |vs|
  {
    if vs != [] {
      var t' := Assigned(t, vs[0]).value;
      AssignedAllRaisesVersion(t', vs[1..]);
    }
  }

  /** A failing call anywhere in the sequence makes the whole sequence fail with
      InvalidTemplateValue: there is no partial success reported as success. */
  lemma {:induction false} AssignedAllFailsOnInvalid(t: Record, vs: seq<int>, k: nat)
    requires k < |vs| && vs[k] <= 0
    ensures AssignedAll(t, vs) == Err(InvalidTemplateValue)
    decreases |vs|
  {
    if k > 0 {
      match Assigned(t, vs[0])
      case Err(e) =>
      case Ok(t') => AssignedAllFailsOnInvalid(t', vs[1..], k - 1);
    }
  }

  /** The scenario of the entity tests: 100 - 99 gives 1 at version 2; subtracting 1
      more fails and leaves value 1, version 2. */
  lemma SubtractScenario(id: Id, ts: Timestamp)
    ensures var t := Record(id, 100, ts, 1, []);
            Subtracted(t, 99) == Ok(Record(id, 1, ts, 2, [])) &&
            Subtracted(Subtracted(t, 99).value, 1) == Err(InvalidTemplateValue)
  {
  }

  /** The live entity; its methods update its attributes in place. */
  class Template {
    var id: Id
    var value: int
    var timestamp: Timestamp
    var version: int
    var messages: seq<Item>

    /** `vars(self)`. */
    function Snapshot(): Record
      reads this
    {
      Record(id, value, timestamp, version, messages)
    }

    /** A new template holds value 0 and no messages. */
    constructor (id: Id, timestamp: Timestamp, version: int)
      ensures Snapshot() == Record(id, 0, timestamp, version, [])
    {
      this.id := id;
      this.value := 0;
      this.timestamp := timestamp;
      this.version := version;
      this.messages := [];
    }

    /** `set_value`: a failed validation changes nothing. */
    method SetValue(v: int) returns (o: Outcome)
      modifies this
      ensures o == Assigned(old(Snapshot()), v).ToOutcome()
      ensures Snapshot() == if o.Pass? then Assigned(old(Snapshot()), v).value else old(Snapshot())
    {
      if v <= 0 {
        return Fail(InvalidTemplateValue);
      }
      value := v;
      version := version + 1;
      o := Pass;
    }

    /** `subtract_value`: returns the new value; a failed validation changes nothing. */
    method SubtractValue(amount: int) returns (r: Result<int>)
      modifies this
      ensures r.Ok? <==> Subtracted(old(Snapshot()), amount).Ok?
      ensures r.Err? ==> r == Err(Subtracted(old(Snapshot()), amount).error) && Snapshot() == old(Snapshot())
      ensures r.Ok? ==> Subtracted(old(Snapshot()), amount) == Ok(Snapshot()) && r.value == value
    {
      var result := value - amount;
      if result <= 0 {
        return Err(InvalidTemplateValue);
      }
      value := result;
      version := version + 1;
      r := Ok(result);
    }

    /** `__eq__`: all attributes are compared. */
    predicate Equals(other: Template)
      reads this, other
    {
      Snapshot() == other.Snapshot()
    }

    /** `__hash__`: a function of the id alone. */
    function Hash(): int
      reads this
    {
      id
    }
  }

  /** Equal templates hash alike, while templates that differ only in value, timestamp,
      version or messages still share a hash: the pair Python's sets rely on. */
  lemma HashRespectsEquality(a: Template, b: Template)
    ensures a.Equals(b) ==> a.Hash() == b.Hash()
    ensures a.id == b.id ==> a.Hash() == b.Hash()
  {
  }
}
