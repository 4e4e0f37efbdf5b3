/** `FakeTemplateRepository`, `FakeTemplateQueryRepository` and `FakeTemplateUnitOfWork`
    of the integrated tests of the `template_module` module: a Python set of text
    `Template` objects. Set membership uses the
    entities' `__eq__` (all attributes) and `__hash__` (the id), so `in`, `remove` and
    `add` find an element equal to the argument, which need not be the same object. */
module TextMemory {
  import opened Common
  import opened Messages
  import opened OrderingForm
  import TextTemplate
  import FakeQueries

  type Template = TextTemplate.Template

  /** `x in s`: some element equals `x`. */
  predicate Contains(s: set<Template>, x: Template)
    reads s, x
  {
    exists e :: e in s && e.Equals(x)
  }

  /** `s.remove(x)` for an `x` that `s` contains: the elements equal to `x` are gone. */
  function Without(s: set<Template>, x: Template): (r: set<Template>)
    reads s, x
    ensures r <= s
    ensures forall e :: e in s ==> (e in r <==> !e.Equals(x))
    ensures !Contains(r, x)
    ensures !Contains(s, x) ==> r == s
  {
    set e | e in s && !e.Equals(x)
  }

  /** `s.add(x)`: nothing changes when an equal element is already there. */
  function Added(s: set<Template>, x: Template): (r: set<Template>)
    reads s, x
    ensures Contains(r, x)
    ensures Contains(s, x) ==> r == s
    ensures !Contains(s, x) ==> r == s + {x}
  {
    if Contains(s, x) then s else s + {x}
  }

  /** Equal templates share their id. */
  lemma EqualsSharesId(a: Template, b: Template)
    ensures a.Equals(b) ==> a.id == b.id
  {
  }

  /** Some element has the id. */
  predicate HasId(s: set<Template>, id: Id)
    reads s
  {
    exists e :: e in s && e.id == id
  }

  /** No two elements share an id, as when every entity was created with a fresh one. */
  predicate UniqueIds(s: set<Template>)
    reads s
  {
    forall a, b :: a in s && b in s && a.id == b.id ==> a == b
  }

  /** The elements with another id. */
  function WithoutId(s: set<Template>, id: Id): (r: set<Template>)
    reads s
    ensures r <= s && !HasId(r, id)
    ensures forall e :: e in s && e.id != id ==> e in r
  {
    set e | e in s && e.id != id
  }

  /** With unique ids, removing a stored entity removes exactly the one with its id. */
  lemma RemoveStored(s: set<Template>, x: Template)
    requires UniqueIds(s) && x in s
    ensures Without(s, x) == WithoutId(s, x.id)
    ensures UniqueIds(Without(s, x))
  {
    forall e | e in s
      ensures e in Without(s, x) <==> e in WithoutId(s, x.id)
    {
      EqualsSharesId(e, x);
    }
  }

  /** With unique ids, storing an entity whose id is taken by a different element leaves
      two elements with that id: the set then breaks `UniqueIds`. Adding one with a new
      id keeps it. */
  lemma AddKeepsUniqueIds(s: set<Template>, x: Template)
    requires UniqueIds(s) && !HasId(s, x.id)
    ensures Added(s, x) == s + {x} && UniqueIds(s + {x})
  {
    forall e | e in s
      ensures !e.Equals(x)
    {
      EqualsSharesId(e, x);
    }
  }

  /** Re-storing a stored entity (the object `get` returned) changes nothing. */
  lemma CreateStoredIsNoOp(s: set<Template>, x: Template)
    requires UniqueIds(s) && x in s
    ensures Without(s, x) + {x} == s
  {
    RemoveStored(s, x);
    forall e | e in WithoutId(s, x.id)
      ensures !e.Equals(x)
    {
      EqualsSharesId(e, x);
    }
    assert WithoutId(s, x.id) + {x} == s;
  }

  class FakeTemplateRepository {
    /** `self._templates`. */
    var templates: set<Template>

    constructor (initial: set<Template>)
      ensures templates == initial
    {
      templates := initial;
    }

    /** `get`: a stored entity with that id (the first the set yields), or
        TemplateDoesNotExist. */
    method Get(id: Id) returns (r: Result<Template>)
      ensures r.Ok? <==> HasId(templates, id)
      ensures r.Ok? ==> r.value in templates && r.value.id == id
      ensures r.Err? ==> r.error == TemplateDoesNotExist
    {
      if t :| t in templates && t.id == id {
        return Ok(t);
      }
      r := Err(TemplateDoesNotExist);
    }

    /** `create`: an equal element is removed first, then the entity is added. */
    method Create(t: Template)
      modifies this
      ensures templates == Without(old(templates), t) + {t}
    {
      if Contains(templates, t) {
        templates := Without(templates, t);
      }
      templates := Added(templates, t);
    }

    /** `delete`: the stored entity with that id is removed. */
    method Delete(id: Id) returns (o: Outcome)
      modifies this
      ensures o.Pass? <==> HasId(old(templates), id)
      ensures o.Fail? ==> o.error == TemplateDoesNotExist && templates == old(templates)
      ensures o.Pass? ==> exists x :: x in old(templates) && x.id == id && templates == Without(old(templates), x)
      ensures o.Pass? && UniqueIds(old(templates)) ==> templates == WithoutId(old(templates), id) && UniqueIds(templates)
    {
      var got := Get(id);
      if got.Err? {
        return Fail(got.error);
      }
      var x := got.value;
      RemoveStoredIf(templates, x);
      templates := Without(templates, x);
      assert x in old(templates) && x.id == id && templates == Without(old(templates), x);
      o := Pass;
    }

    /** `update`: the stored entity with the new one's id is replaced by it. */
    method Update(t: Template) returns (o: Outcome)
      modifies this
      ensures o.Pass? <==> HasId(old(templates), t.id)
      ensures o.Fail? ==> o.error == TemplateDoesNotExist && templates == old(templates)
      ensures o.Pass? ==> exists x :: x in old(templates) && x.id == t.id && templates == Added(Without(old(templates), x), t)
      ensures o.Pass? && UniqueIds(old(templates)) ==> templates == WithoutId(old(templates), t.id) + {t} && UniqueIds(templates)
    {
      var got := Get(t.id);
      if got.Err? {
        return Fail(got.error);
      }
      var x := got.value;
      ReplaceStoredIf(templates, x, t);
      templates := Added(Without(templates, x), t);
      assert x in old(templates) && x.id == t.id && templates == Added(Without(old(templates), x), t);
      o := Pass;
    }
  }

  /** With unique ids, replacing the stored entity of an id by another with that id
      leaves exactly the others plus the new one, and ids stay unique. */
  lemma ReplaceStoredIf(s: set<Template>, x: Template, t: Template)
    requires x in s && x.id == t.id
    ensures UniqueIds(s) ==> Added(Without(s, x), t) == WithoutId(s, t.id) + {t} && UniqueIds(WithoutId(s, t.id) + {t})
  {
    if UniqueIds(s) {
      RemoveStored(s, x);
      AddKeepsUniqueIds(Without(s, x), t);
    }
  }

  /** `RemoveStored` where its precondition holds. */
  lemma RemoveStoredIf(s: set<Template>, x: Template)
    requires x in s
    ensures UniqueIds(s) ==> Without(s, x) == WithoutId(s, x.id) && UniqueIds(Without(s, x))
  {
    if UniqueIds(s) {
      RemoveStored(s, x);
    }
  }

  // ---------------------------------------------------------------------------
  // FakeTemplateQueryRepository

  /** How the query repository reads a string entity's state. */
  function View(idText: Id -> string): FakeQueries.View<TextTemplate.Record, TextValue> {
    FakeQueries.View((t: TextTemplate.Record) => t.id, idText, (t: TextTemplate.Record) => t.value, (t: TextTemplate.Record) => t.timestamp)
  }

  /** `list(filters, ordering, pagination)` on the stored states; a `None` entry of the
      ordering raises AttributeError. */
  function List(ts: set<TextTemplate.Record>, f: FakeQueries.Filters<TextValue>,
                ordering: seq<Option<Ordering>>, page: Option<FakeQueries.Page>,
                idText: Id -> string, iter: set<TextTemplate.Record> -> seq<TextTemplate.Record>)
    : (r: Result<(set<TextTemplate.Record>, nat)>)
    ensures r.Ok? ==> r.value.1 == |r.value.0|
  {
    FakeQueries.List(ts, f, ordering, page, false, View(idText), iter)
  }

  /** A listing holds only stored templates that every given filter accepts (the value
      included); without a page, all of them. It fails at a `None` entry of the ordering,
      or when it has to sort templates with different values. */
  lemma ListMatches(ts: set<TextTemplate.Record>, f: FakeQueries.Filters<TextValue>,
                    ordering: seq<Option<Ordering>>, page: Option<FakeQueries.Page>,
                    idText: Id -> string, iter: set<TextTemplate.Record> -> seq<TextTemplate.Record>)
    requires forall s :: FakeQueries.Enumerates(iter(s), s)
    ensures var r := List(ts, f, ordering, page, idText, iter);
            (r.Ok? <==> forall i :: 0 <= i < |ordering| ==>
                          ordering[i].Some? &&
                          FakeQueries.Passes(FakeQueries.Filter(ts, f, View(idText)), ordering[i], false, View(idText))) &&
            (r.Ok? ==> forall t :: t in r.value.0 ==> t in ts && FakeQueries.Kept(View(idText), f, t)) &&
            (r.Ok? && page.None? ==> forall t :: t in ts && FakeQueries.Kept(View(idText), f, t) ==> t in r.value.0)
  {
    FakeQueries.OrderPasses(FakeQueries.Filter(ts, f, View(idText)), ordering, false, View(idText));
    if List(ts, f, ordering, page, idText, iter).Ok? {
      FakeQueries.ListContents(ts, f, ordering, page, false, View(idText), iter);
    }
  }

  // ---------------------------------------------------------------------------
  // FakeTemplateUnitOfWork

  /** A unit of work over the in-memory repository. Leaving the `with` block calls
      `rollback`, which does nothing: the entities stay as the block left them, and
      `committed` records whether `commit` was called. */
  class FakeTemplateUnitOfWork {
    const templates: FakeTemplateRepository
    var committed: bool

    constructor (initial: set<Template>)
      ensures fresh(templates) && templates.templates == initial && !committed
    {
      templates := new FakeTemplateRepository(initial);
      committed := false;
    }

    /** `__enter__` returns the unit of work itself and changes nothing. */
    method Enter() returns (self: FakeTemplateUnitOfWork)
      ensures self == this
    {
      self := this;
    }

    /** `commit`. */
    method Commit()
      modifies this
      ensures committed
    {
      committed := true;
    }

    /** `rollback` does nothing. */
    method Rollback()
    {
    }

    /** `__exit__`: rollback, then the block's exception, if any, propagates; neither the
        entities nor `committed` change. */
    method Exit(exc: Option<Error>) returns (raised: Option<Error>)
      ensures raised == exc
    {
      Rollback();
      raised := exc;
    }
  }
}
