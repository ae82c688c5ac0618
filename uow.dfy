/**
 * The unit of work (src/allocation/service_layer/unit_of_work.py) over an
 * in-memory stand-in for the database session: a store of committed batch
 * values, a session whose tracked batch objects are the working copy, and a
 * batch repository bound to one session.
 */
module Uow {
  import opened Models

  /** One step of a unit of work's lifecycle, as recorded in its log. */
  datatype Event = Entered | Committed | RolledBack | Closed

  /** The store the session factory connects to: the committed batches. */
  class Database {
    var rows: seq<BatchState>

    constructor (rows: seq<BatchState>)
      ensures this.rows == rows
    {
      this.rows := rows;
    }
  }

  /** Materialises committed rows as new batch objects, one per row. */
  method LoadBatches(rows: seq<BatchState>) returns (objs: seq<Batch>)
    ensures States(objs) == rows
    ensures Distinct(objs)
    ensures forall b :: b in objs ==> fresh(b)
  {
    objs := [];
    var i := 0;
    while i < |rows|
      invariant 0 <= i <= |rows|
      invariant States(objs) == rows[..i]
      invariant Distinct(objs)
      invariant forall b :: b in objs ==> fresh(b)
    {
      var b := new Batch.FromState(rows[i]);
      objs := objs + [b];
      i := i + 1;
    }
  }

  /** A database session: the batch objects it tracks are the uncommitted working copy. */
  class Session {
    const db: Database
    var tracked: seq<Batch>
    var isOpen: bool

    /** The tracked batches are distinct objects, and a closed session tracks none. */
    ghost predicate Valid()
      reads this
    {
      && Distinct(tracked)
      && (!isOpen ==> tracked == [])
    }

    /** The working copy: the current values of the tracked batches. */
    function Working(): seq<BatchState>
      reads this, tracked
    {
      States(tracked)
    }

    /** A new session sees the committed rows. */
    constructor (db: Database)
      ensures this.db == db && isOpen && Valid()
      ensures Working() == db.rows
      ensures forall b :: b in tracked ==> fresh(b)
    {
      this.db := db;
      var objs := LoadBatches(db.rows);
      tracked := objs;
      isOpen := true;
    }

    /** `session.add`: starts tracking a batch; adding a tracked batch again does nothing. */
    method Add(batch: Batch)
      requires Valid() && isOpen
      modifies this
      ensures Valid() && isOpen == old(isOpen)
      ensures tracked == if batch in old(tracked) then old(tracked) else old(tracked) + [batch]
    {
      if batch !in tracked {
        tracked := tracked + [batch];
      }
    }

    /** `query(Batch).all()`: every tracked batch, in a new list. */
    method All() returns (a: array<Batch>)
      requires isOpen
      ensures fresh(a) && a[..] == tracked
    {
      a := new Batch[|tracked|](i requires 0 <= i < |tracked| reads this => tracked[i]);
    }

    /**
     * `commit`: the working copy of an open session becomes the committed
     * state; a closed session has nothing pending, so the store is unchanged.
     */
    method Commit()
      modifies db
      ensures isOpen ==> db.rows == Working()
      ensures !isOpen ==> db.rows == old(db.rows)
    {
      if isOpen {
        db.rows := States(tracked);
      }
    }

    /** `rollback`: discards the working copy; the batches are reloaded from the committed rows. */
    method Rollback()
      requires Valid() && isOpen
      modifies this
      ensures Valid() && isOpen == old(isOpen)
      ensures Working() == db.rows
      ensures forall b :: b in tracked ==> fresh(b)
    {
      var objs := LoadBatches(db.rows);
      tracked := objs;
    }

    /** `close`: releases the session; nothing stays tracked. */
    method Close()
      modifies this
      ensures Valid() && !isOpen && tracked == []
    {
      tracked := [];
      isOpen := false;
    }
  }

  /** The batch repository bound to one session. */
  class BatchRepository {
    const session: Session

    constructor (session: Session)
      ensures this.session == session
    {
      this.session := session;
    }

    /** `save`: hands the batch to the session. */
    method Save(batch: Batch)
      requires session.Valid() && session.isOpen
      modifies session
      ensures session.Valid() && session.isOpen == old(session.isOpen)
      ensures session.tracked ==
        if batch in old(session.tracked) then old(session.tracked) else old(session.tracked) + [batch]
    {
      session.Add(batch);
    }

    /** `find_all`: every batch the session sees. */
    method FindAll() returns (a: array<Batch>)
      requires session.isOpen
      ensures fresh(a) && a[..] == session.tracked
    {
      a := session.All();
    }
  }

  /**
   * A unit of work over one database. Each `with` scope enters (a fresh
   * session and repository), works, maybe commits, and exits (always a
   * rollback, then the session is closed). `log` records the lifecycle.
   */
  class UnitOfWork {
    const db: Database
    var session: Session?
    var batches: BatchRepository?
    ghost var log: seq<Event>

    ghost predicate Valid()
      reads this, session, batches
    {
      session != null ==>
        && batches != null
        && batches.session == session
        && session.db == db
        && session.Valid()
    }

    constructor (db: Database)
      ensures this.db == db && session == null && batches == null && log == [] && Valid()
    {
      this.db := db;
      session := null;
      batches := null;
      log := [];
    }

    /** `__enter__`: a fresh session and a fresh repository bound to it; returns this unit of work. */
    method Enter() returns (u: UnitOfWork)
      modifies this
      ensures u == this && Valid()
      ensures session != null && fresh(session) && fresh(batches)
      ensures session.isOpen && session.Working() == db.rows
      ensures forall b :: b in session.tracked ==> fresh(b)
      ensures log == old(log) + [Entered]
    {
      var s := new Session(db);
      session := s;
      batches := new BatchRepository(s);
      log := log + [Entered];
      u := this;
    }

    /**
     * `commit`: persists the working copy of the current session; after the
     * scope has closed it, the session has nothing pending and the store stays.
     */
    method Commit()
      requires Valid() && session != null
      modifies this`log, db
      ensures Valid()
      ensures session.isOpen ==> db.rows == session.Working()
      ensures !session.isOpen ==> db.rows == old(db.rows)
      ensures log == old(log) + [Committed]
    {
      session.Commit();
      log := log + [Committed];
    }

    /** `rollback`: discards the working copy; the committed rows stay as they are. */
    method Rollback()
      requires Valid() && session != null && session.isOpen
      modifies this`log, session
      ensures Valid() && session.isOpen == old(session.isOpen)
      ensures session.Working() == db.rows
      ensures forall b :: b in session.tracked ==> fresh(b)
      ensures log == old(log) + [RolledBack]
    {
      session.Rollback();
      log := log + [RolledBack];
    }

    /**
     * `__exit__`: rolls back whether or not the scope committed or raised,
     * then closes the session. It returns nothing, so an exception raised in
     * the scope reaches the caller.
     */
    method Exit()
      requires Valid() && session != null && session.isOpen
      modifies this`log, session
      ensures Valid() && db.rows == old(db.rows)
      ensures !session.isOpen && session.tracked == []
      ensures log == old(log) + [RolledBack, Closed]
    {
      Rollback();
      session.Close();
      log := log + [Closed];
    }
  }
}
