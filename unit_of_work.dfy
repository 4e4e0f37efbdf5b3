/** The unit-of-work protocol: `AbstractUnitOfWork` (`__enter__` returns the unit,
    `__exit__` calls `rollback`) and the three SQLAlchemy units of work built on it, which
    open a session on enter and, on exit, commit without an exception or roll back with
    one, close the session and then run the base `__exit__`.

    The database is the unit's `durable` map from ids to rows; a session holds the working
    copy its queries and writes see. Committing makes the working copy durable; rolling
    back or closing discards it. `log` records the calls made on sessions. The `template`
    and `template_module` units guard their `session` property (RuntimeError before the
    first enter); the `template_app` unit only has the attribute after the first enter
    (AttributeError). */
module UnitOfWork {
  import opened Common

  datatype SessionCall = Committed | RolledBack | Closed

  /** A database session: the rows as this transaction sees them. */
  class Session<R> {
    var working: map<Id, R>
    var closed: bool

    constructor (rows: map<Id, R>)
      ensures working == rows && !closed
    {
      working := rows;
      closed := false;
    }
  }

  /** What the database and a session hold. */
  datatype Store<R> = Store(durable: map<Id, R>, working: map<Id, R>, closed: bool)

  /** The effect of one session call. A closed session may still be used: its next call
      starts a new transaction from the durable rows. */
  function Applied<R>(s: Store<R>, c: SessionCall): (t: Store<R>)
    ensures c.Committed? ==> t.durable == s.working
    ensures !c.Committed? ==> t.durable == s.durable
    ensures t.working == t.durable
    ensures t.closed <==> c.Closed? || (s.closed && !c.Closed?)
  {
    match c
    case Committed => Store(s.working, s.working, s.closed)
    case RolledBack => Store(s.durable, s.durable, s.closed)
    case Closed => Store(s.durable, s.durable, true)
  }

  function AppliedAll<R>(s: Store<R>, cs: seq<SessionCall>): Store<R>
    decreases |cs|
  {
    if cs == [] then s else AppliedAll(Applied(s, cs[0]), cs[1..])
  }

  /** The calls `__exit__` makes on the session: commit or roll back, close, then the
      base class's rollback. */
  function ExitCalls(exc: Option<Error>): (cs: seq<SessionCall>)
    ensures |cs| == 3 && cs[1] == Closed && cs[2] == RolledBack
    ensures cs[0] == (if exc.None? then Committed else RolledBack)
  {
    [if exc.None? then Committed else RolledBack, Closed, RolledBack]
  }

  function Count(cs: seq<SessionCall>, c: SessionCall): nat
    decreases |cs|
  {
    if cs == [] then 0 else (if cs[0] == c then 1 else 0) + Count(cs[1..], c)
  }

  /** Exiting commits the working copy exactly when the block raised nothing, and
      otherwise leaves the durable rows as they were; in both cases the session ends
      closed, holding the durable rows. The trailing rollback of the base class does not
      undo a commit. */
  lemma ExitEffect<R>(s: Store<R>, exc: Option<Error>)
    ensures AppliedAll(s, ExitCalls(exc)) ==
            var d := if exc.None? then s.working else s.durable; Store(d, d, true)
  {
    var cs := ExitCalls(exc);
    var s1 := Applied(s, cs[0]);
    var s2 := Applied(s1, cs[1]);
    var s3 := Applied(s2, cs[2]);
    assert cs[1..][0] == cs[1] && cs[1..][1..][0] == cs[2] && cs[1..][1..][1..] == [];
    assert AppliedAll(s2, cs[1..][1..]) == s3;
    assert AppliedAll(s1, cs[1..]) == s3;
  }

  /** The session is closed once and committed at most once, and the base class rolls
      back once more after the unit's own commit or rollback. */
  lemma ExitCallCounts(exc: Option<Error>)
    ensures Count(ExitCalls(exc), Closed) == 1
    ensures Count(ExitCalls(exc), Committed) == (if exc.None? then 1 else 0)
    ensures Count(ExitCalls(exc), RolledBack) == (if exc.None? then 1 else 2)
  {
    var cs := ExitCalls(exc);
    CountThree(cs, Closed);
    CountThree(cs, Committed);
    CountThree(cs, RolledBack);
  }

  lemma CountThree(cs: seq<SessionCall>, c: SessionCall)
    requires |cs| == 3
    ensures Count(cs, c) == (if cs[0] == c then 1 else 0) + (if cs[1] == c then 1 else 0) + (if cs[2] == c then 1 else 0)
  {
    var t := cs[1..];
    assert t[0] == cs[1] && t[1..][0] == cs[2] && t[1..][1..] == [];
    assert Count(t[1..], c) == (if cs[2] == c then 1 else 0) + Count(t[1..][1..], c);
  }

  /** The error raised by reaching for the session before the first enter. */
  function NoSession(guarded: bool): (e: Error)
    ensures guarded ==> e == RuntimeError
    ensures !guarded ==> e == AttributeError
  {
    if guarded then RuntimeError else AttributeError
  }

  class SqlUnitOfWork<R> {
    /** Whether the `session` property guards against a missing session. */
    const guarded: bool
    var durable: map<Id, R>
    /** `_session` (`session` in the application variant), `None` until the first enter. */
    var session: Session?<R>
    ghost var log: seq<SessionCall>

    constructor (guarded: bool, rows: map<Id, R>)
      ensures this.guarded == guarded && durable == rows && session == null && log == []
    {
      this.guarded := guarded;
      durable := rows;
      session := null;
      log := [];
    }

    /** The store as the current session sees it. */
    function StoreOf(): Store<R>
      requires session != null
      reads this, session
    {
      Store(durable, session.working, session.closed)
    }

    /** The `session` property: the session, or the error of reaching for it too early. */
    function SessionOrRaised(): (r: Result<Session<R>>)
      reads this
      ensures r.Ok? <==> session != null
      ensures r.Ok? ==> r.value == session
      ensures r.Err? ==> r.error == NoSession(guarded)
    {
      if session == null then Err(NoSession(guarded)) else Ok(session)
    }

    /** `__enter__`: a fresh session from the factory, on the durable rows; the unit
        itself is returned. */
    method Enter() returns (self: SqlUnitOfWork<R>)
      modifies this
      ensures self == this
      ensures session != null && fresh(session)
      ensures session.working == durable && !session.closed
      ensures durable == old(durable) && log == old(log)
    {
      session := new Session(durable);
      self := this;
    }

    method Commit() returns (o: Outcome)
      modifies this, session
      ensures session == old(session)
      ensures old(session) == null ==> o == Fail(NoSession(guarded)) && durable == old(durable) && log == old(log)
      ensures old(session) != null ==> o == Pass && StoreOf() == Applied(old(StoreOf()), Committed) && log == old(log) + [Committed]
    {
      if session == null {
        return Fail(NoSession(guarded));
      }
      durable := session.working;
      log := log + [Committed];
      o := Pass;
    }

    method Rollback() returns (o: Outcome)
      modifies this, session
      ensures session == old(session)
      ensures old(session) == null ==> o == Fail(NoSession(guarded)) && durable == old(durable) && log == old(log)
      ensures old(session) != null ==> o == Pass && StoreOf() == Applied(old(StoreOf()), RolledBack) && log == old(log) + [RolledBack]
    {
      if session == null {
        return Fail(NoSession(guarded));
      }
      session.working := durable;
      log := log + [RolledBack];
      o := Pass;
    }

    method CloseSession()
      requires session != null
      modifies this, session
      ensures session == old(session)
      ensures StoreOf() == Applied(old(StoreOf()), Closed) && log == old(log) + [Closed]
    {
      session.working := durable;
      session.closed := true;
      log := log + [Closed];
    }

    /** `__exit__(exc)`: the exception it lets through, or the one it raises itself.
        With a session, the block's exception (if any) always propagates unchanged and the
        session calls are exactly `ExitCalls(exc)`. Before any enter, the commit or
        rollback reaches for the missing session and raises. */
    method Exit(exc: Option<Error>) returns (raised: Option<Error>)
      modifies this, session
      ensures session == old(session)
      ensures old(session) == null ==> raised == Some(NoSession(guarded)) && durable == old(durable) && log == old(log)
      ensures old(session) != null ==> raised == exc && log == old(log) + ExitCalls(exc) &&
                                       StoreOf() == AppliedAll(old(StoreOf()), ExitCalls(exc))
    {
      var o: Outcome;
      ghost var s0 := if session == null then Store(durable, map[], false) else StoreOf();
      if exc.None? {
        o := Commit();
      } else {
        o := Rollback();
      }
      if o.Fail? {
        return Some(o.error);
      }
      ghost var s1 := StoreOf();
      CloseSession();
      ghost var s2 := StoreOf();
      o := Rollback();
      raised := exc;
      ExitEffect(s0, exc);
      assert StoreOf() == Applied(Applied(s1, Closed), RolledBack);
      assert s1 == Applied(s0, ExitCalls(exc)[0]);
    }
  }

  /** A `with` block whose body leaves the working copy as `working` and raises `exc`:
      afterwards the database holds `working` exactly when nothing was raised. */
  method WithBlock<R>(uow: SqlUnitOfWork<R>, working: map<Id, R>, exc: Option<Error>) returns (raised: Option<Error>)
    modifies uow, uow.session
    ensures uow.session != null && fresh(uow.session)
    ensures raised == exc
    ensures uow.durable == (if exc.None? then working else old(uow.durable))
    ensures uow.log == old(uow.log) + ExitCalls(exc)
  {
    var self := uow.Enter();
    uow.session.working := working;
    raised := uow.Exit(exc);
    ExitEffect(Store(old(uow.durable), working, false), exc);
  }
}
