/** `OrderingForm.create_ordering`: the `ordering=` query parameter, a comma-separated
    list of field names, each optionally prefixed with `-` for descending order. */
module OrderingForm {
  import opened Common
  import opened TextOps

  datatype Direction = Ascending | Descending

  /** The `Ordering` DTO. */
  datatype Ordering = Ordering(field: string, order: Direction)

  /** `_get_ordering_for_single_field`: a blank entry gives `None`; a leading `-` gives
      descending order on the rest of the entry; anything else is ascending, on the entry
      exactly as written (no trimming). */
  function FieldOrdering(f: string): (r: Option<Ordering>)
    ensures r.None? <==> Blank(f)
    ensures r.Some? && f[0] == '-' ==> r.value == Ordering(f[1..], Descending)
    ensures r.Some? && f[0] != '-' ==> r.value == Ordering(f, Ascending)
  {
    StripEmptyIffBlank(f);
    if Strip(f) == "" then None
    else if f[0] == '-' then Some(Ordering(f[1..], Descending))
    else Some(Ordering(f, Ascending))
  }

  /** The text of one entry, the inverse of `FieldOrdering`. */
  function Render(o: Ordering): string {
    if o.order == Descending then "-" + o.field else o.field
  }

  /** An ordering the parser can produce from some entry: an ascending field that is not
      blank and does not itself start with `-`. */
  predicate Expressible(o: Ordering) {
    o.order == Descending || (!Blank(o.field) && o.field[0] != '-')
  }

  /** Parsing inverts rendering, and rendering inverts parsing on every non-blank entry. */
  lemma FieldOrderingRoundTrip(o: Ordering, f: string)
    ensures Expressible(o) ==> FieldOrdering(Render(o)) == Some(o)
    ensures !Blank(f) ==> Expressible(FieldOrdering(f).value) && Render(FieldOrdering(f).value) == f
  {
    if o.order == Descending {
      assert !IsSpace(Render(o)[0]);
      assert Render(o)[1..] == o.field;
    }
    if !Blank(f) && f[0] == '-' {
      assert f == "-" + f[1..];
    }
  }

  /** `create_ordering`: one entry per comma-separated part, in order; `None` as a whole
      when the first entry is `None`. */
  function CreateOrdering(data: string): (r: Option<seq<Option<Ordering>>>)
    ensures r.None? <==> Blank(Split(data, ',')[0])
    ensures r.Some? ==> |r.value| == |Split(data, ',')| &&
                        forall i :: 0 <= i < |r.value| ==> r.value[i] == FieldOrdering(Split(data, ',')[i])
  {
    var parts := Split(data, ',');
    var order := seq(|parts|, i requires 0 <= i < |parts| => FieldOrdering(parts[i]));
    if order[0].None? then None else Some(order)
  }

  function RenderAll(os: seq<Ordering>): (parts: seq<string>)
    ensures |parts| == |os| && forall i :: 0 <= i < |os| ==> parts[i] == Render(os[i])
  {
    seq(|os|, i requires 0 <= i < |os| => Render(os[i]))
  }

  /** Rendering a non-empty list of expressible orderings over comma-free field names,
      joining with commas and parsing gives the list back. */
  lemma CreateOrderingRoundTrip(os: seq<Ordering>)
    requires |os| >= 1
    requires forall i :: 0 <= i < |os| ==> Expressible(os[i]) && ',' !in os[i].field
    ensures CreateOrdering(Join(RenderAll(os), ',')) ==
            Some(seq(|os|, i requires 0 <= i < |os| => Some(os[i])))
  {
    var parts := RenderAll(os);
    forall i | 0 <= i < |parts| ensures ',' !in parts[i] {
      if os[i].order == Descending {
        assert parts[i] == "-" + os[i].field;
      }
    }
    SplitJoin(parts, ',');
    forall i | 0 <= i < |os| ensures FieldOrdering(parts[i]) == Some(os[i]) {
      FieldOrderingRoundTrip(os[i], "");
    }
    var r := CreateOrdering(Join(parts, ','));
    assert FieldOrdering(parts[0]).Some?;
    assert r.Some?;
    assert r.value == seq(|os|, i requires 0 <= i < |os| => Some(os[i]));
  }

  /** A single field name gives a one-entry list: `-timestamp` is descending on
      `timestamp` and `timestamp` ascending, as the API tests expect. */
  lemma SingleField(f: string)
    requires ',' !in f && !Blank(f) && f[0] != '-'
    ensures CreateOrdering("-" + f) == Some([Some(Ordering(f, Descending))])
    ensures CreateOrdering(f) == Some([Some(Ordering(f, Ascending))])
  {
    var d := "-" + f;
    assert ',' !in d;
    SplitWithout(d, ',');
    assert !IsSpace(d[0]) && d[1..] == f;
    assert !Blank(d);
    assert FieldOrdering(d) == Some(Ordering(f, Descending));
    var r := CreateOrdering(d);
    assert r.Some? && |r.value| == 1 && r.value[0] == FieldOrdering(d);
    assert r.value == [Some(Ordering(f, Descending))];
    SplitWithout(f, ',');
    assert FieldOrdering(f) == Some(Ordering(f, Ascending));
    var r' := CreateOrdering(f);
    assert r'.Some? && |r'.value| == 1 && r'.value[0] == FieldOrdering(f);
    assert r'.value == [Some(Ordering(f, Ascending))];
  }

  /** A blank first entry discards the whole list; a blank later entry stays as `None`. */
  lemma BlankEntry(b: string, f: string)
    requires Blank(b) && ',' !in b
    requires ',' !in f && !Blank(f) && f[0] != '-'
    ensures CreateOrdering(b + "," + f) == None
    ensures CreateOrdering(f + "," + b) == Some([Some(Ordering(f, Ascending)), None])
  {
    assert Join([b, f], ',') == b + "," + f;
    SplitJoin([b, f], ',');
    assert Join([f, b], ',') == f + "," + b;
    SplitJoin([f, b], ',');
    assert FieldOrdering(f) == Some(Ordering(f, Ascending));
    assert FieldOrdering(b) == None;
    var r := CreateOrdering(f + "," + b);
    assert r.Some? && |r.value| == 2 && r.value[0] == FieldOrdering(f) && r.value[1] == FieldOrdering(b);
    assert r.value == [Some(Ordering(f, Ascending)), None];
  }
}
