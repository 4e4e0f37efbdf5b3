/** The `Pagination` dataclass of the applications: `__post_init__` converts both fields
    with `int(...)` and checks that they are not negative. A field may be handed any
    Python value; `int` accepts integers, floats (truncating toward zero) and numeric
    strings, raises ValueError on other strings and TypeError on `None` and other
    objects. Only ValueError is caught and re-raised with the class's own message. */
module PaginationDto {
  import opened Common
  import opened TextOps

  /** A value handed to a field of the dataclass. */
  datatype Raw = Int(n: int) | Float(x: real) | Str(s: string) | NoneValue

  const NotAnInteger: string := "Offset must be an integer."
  const NegativeOffset: string := "Offset must be greater than or equal to 0."
  const NegativeRecordsPerPage: string := "Records per page must be greater than or equal to 0."

  /** `int(x)` of a float: the whole part, rounded toward zero. */
  function Trunc(x: real): (n: int)
    ensures x >= 0.0 ==> n as real <= x < n as real + 1.0
    ensures x < 0.0 ==> n as real - 1.0 < x <= n as real
  {
    if x >= 0.0 then x.Floor else -((-x).Floor)
  }

  /** `int(x)`. */
  function ToInt(x: Raw): (r: Result<int>)
    ensures x.Int? ==> r == Ok(x.n)
    ensures x.Float? ==> r == Ok(Trunc(x.x))
    ensures x.Str? ==> r == ParseInt(x.s)
    ensures x.NoneValue? ==> r == Err(TypeError)
  {
    match x
    case Int(n) => Ok(n)
    case Float(f) => Ok(Trunc(f))
    case Str(s) => ParseInt(s)
    case NoneValue => Err(TypeError)
  }

  /** `try: int(x) except ValueError: raise ValueError(NotAnInteger)`. */
  function Converted(x: Raw): (r: Result<int>)
    ensures r.Ok? <==> ToInt(x).Ok?
    ensures r.Ok? ==> r.value == ToInt(x).value
    ensures r.Err? ==> r.error == (if ToInt(x).error.ValueError? then ValueError(NotAnInteger) else ToInt(x).error)
  {
    match ToInt(x)
    case Ok(n) => Ok(n)
    case Err(e) => Err(if e.ValueError? then ValueError(NotAnInteger) else e)
  }

  /** The two fields after `__post_init__`, or the exception it raises. */
  function Validated(offset: Raw, recordsPerPage: Raw): Result<(int, int)> {
    match Converted(offset)
    case Err(e) => Err(e)
    case Ok(o) =>
      if o < 0 then Err(ValueError(NegativeOffset))
      else match Converted(recordsPerPage)
        case Err(e) => Err(e)
        case Ok(n) => if n < 0 then Err(ValueError(NegativeRecordsPerPage)) else Ok((o, n))
  }

  /** Construction succeeds exactly when both fields convert to non-negative integers,
      zero included; the offset is checked first, and a `records_per_page` that is no
      integer is reported with the offset's message. */
  lemma ValidatedCases(offset: Raw, recordsPerPage: Raw)
    ensures Validated(offset, recordsPerPage).Ok? <==>
              ToInt(offset).Ok? && ToInt(offset).value >= 0 && ToInt(recordsPerPage).Ok? && ToInt(recordsPerPage).value >= 0
    ensures Validated(offset, recordsPerPage).Ok? ==>
              Validated(offset, recordsPerPage).value == (ToInt(offset).value, ToInt(recordsPerPage).value)
    ensures ToInt(offset).Ok? && ToInt(offset).value < 0 ==> Validated(offset, recordsPerPage) == Err(ValueError(NegativeOffset))
    ensures ToInt(offset).Ok? && ToInt(offset).value >= 0 && ToInt(recordsPerPage).Ok? && ToInt(recordsPerPage).value < 0 ==>
              Validated(offset, recordsPerPage) == Err(ValueError(NegativeRecordsPerPage))
    ensures ToInt(offset).Ok? && ToInt(offset).value >= 0 && recordsPerPage.Str? && ParseInt(recordsPerPage.s).Err? ==>
              Validated(offset, recordsPerPage) == Err(ValueError(NotAnInteger))
    ensures offset.NoneValue? ==> Validated(offset, recordsPerPage) == Err(TypeError)
  {
  }

  /** A field given as the decimal text of an integer behaves as the integer itself. */
  lemma DecimalTextIsInteger(offset: int, recordsPerPage: int)
    ensures Validated(Str(Dec(offset)), Str(Dec(recordsPerPage))) == Validated(Int(offset), Int(recordsPerPage))
  {
    ParseDec(offset);
    ParseDec(recordsPerPage);
  }

  class Pagination {
    var offset: Raw
    var recordsPerPage: Raw

    /** The dataclass's generated `__init__`, before `__post_init__`. */
    constructor (offset: Raw, recordsPerPage: Raw)
      ensures this.offset == offset && this.recordsPerPage == recordsPerPage
    {
      this.offset := offset;
      this.recordsPerPage := recordsPerPage;
    }

    /** `__post_init__`: on success both fields hold non-negative integers. Each field
        that converts is replaced by its integer before the next check, so a failure on
        `records_per_page` leaves the offset converted. */
    method PostInit() returns (o: Outcome)
      modifies this
      ensures o == Validated(old(offset), old(recordsPerPage)).ToOutcome()
      ensures o.Pass? ==> offset == Int(Validated(old(offset), old(recordsPerPage)).value.0) &&
                          recordsPerPage == Int(Validated(old(offset), old(recordsPerPage)).value.1)
      ensures o.Pass? ==> offset.n >= 0 && recordsPerPage.n >= 0
      ensures offset == (if ToInt(old(offset)).Ok? then Int(ToInt(old(offset)).value) else old(offset))
      ensures recordsPerPage == (if o.Pass? || (o.error == ValueError(NegativeRecordsPerPage))
                                 then Int(ToInt(old(recordsPerPage)).value) else old(recordsPerPage))
    {
      var converted := Converted(offset);
      if converted.Err? {
        return Fail(converted.error);
      }
      offset := Int(converted.value);
      if offset.n < 0 {
        return Fail(ValueError(NegativeOffset));
      }
      converted := Converted(recordsPerPage);
      if converted.Err? {
        return Fail(converted.error);
      }
      recordsPerPage := Int(converted.value);
      if recordsPerPage.n < 0 {
        return Fail(ValueError(NegativeRecordsPerPage));
      }
      o := Pass;
    }
  }
}
