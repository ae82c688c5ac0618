/**
 * Client code that drives a unit of work the way the repository's
 * integration tests do, with what each scope leaves in the store.
 */
module Scenarios {
  import opened Wrappers
  import opened Models
  import opened Uow

  /** The failure a scope body raises, which the scope lets through to the caller. */
  datatype ScopeError = CustomError

  /**
   * Loads the batches, allocates a line to the `i`-th, commits: after exit the
   * store holds the allocation, and `ok` reports whether the line is there.
   */
  method AllocateAndCommit(uow: UnitOfWork, i: nat, line: OrderLine) returns (ok: bool)
    requires uow.Valid() && i < |uow.db.rows|
    modifies uow, uow.db
    ensures uow.Valid()
    ensures ok <==> line in old(uow.db.rows)[i].allocations || old(uow.db.rows)[i].CanAllocate(line)
    ensures uow.db.rows == old(uow.db.rows)[i := old(uow.db.rows)[i].Allocate(line)]
    ensures uow.log == old(uow.log) + [Entered, Committed, RolledBack, Closed]
  {
    ghost var rows := uow.db.rows;
    ghost var log0 := uow.log;
    var _ := uow.Enter();
    var batches := uow.batches.FindAll();
    ghost var tracked := uow.session.tracked;
    assert batches[i] == tracked[i] && tracked[i] in uow.session.tracked;
    batches[i].Allocate(line);
    ghost var after := rows[i := rows[i].Allocate(line)];
    forall j | 0 <= j < |rows| ensures uow.session.Working()[j] == after[j] {
      if j != i {
        assert tracked[j] != tracked[i];
      }
    }
    assert uow.session.Working() == after;
    uow.Commit();
    assert uow.log == log0 + [Entered, Committed];
    uow.Exit();
    ok := line in uow.db.rows[i].allocations;
  }

  /** Saves a batch and leaves the scope without committing: the store is as before. */
  method SaveWithoutCommit(uow: UnitOfWork, batch: Batch)
    requires uow.Valid()
    modifies uow, uow.db
    ensures uow.Valid()
    ensures uow.db.rows == old(uow.db.rows)
    ensures uow.log == old(uow.log) + [Entered, RolledBack, Closed]
  {
    ghost var log0 := uow.log;
    var _ := uow.Enter();
    uow.batches.Save(batch);
    assert uow.log == log0 + [Entered];
    uow.Exit();
  }

  /** Saves a batch, then the scope body raises: the error reaches the caller and the store is as before. */
  method SaveThenRaise(uow: UnitOfWork, batch: Batch) returns (r: Result<(), ScopeError>)
    requires uow.Valid()
    modifies uow, uow.db
    ensures uow.Valid()
    ensures r == Failure(CustomError)
    ensures uow.db.rows == old(uow.db.rows)
    ensures uow.log == old(uow.log) + [Entered, RolledBack, Closed]
  {
    ghost var log0 := uow.log;
    var _ := uow.Enter();
    uow.batches.Save(batch);
    r := Failure(CustomError);
    assert uow.log == log0 + [Entered];
    uow.Exit();
  }

  /** Saves a new batch, commits, then rolls back at once: the commit stands and the working copy matches it. */
  method CommitThenRollback(uow: UnitOfWork, reference: string, sku: string, qty: int, eta: Eta)
    requires uow.Valid()
    modifies uow, uow.db
    ensures uow.Valid() && uow.session != null
    ensures uow.db.rows == old(uow.db.rows) + [NewBatchState(reference, sku, qty, eta)]
    ensures uow.session.Working() == uow.db.rows
    ensures uow.log == old(uow.log) + [Entered, Committed, RolledBack]
  {
    ghost var log0 := uow.log;
    var _ := uow.Enter();
    var batch := new Batch(reference, sku, qty, eta);
    ghost var tracked := uow.session.tracked;
    uow.batches.Save(batch);
    assert uow.session.tracked == tracked + [batch];
    assert uow.session.Working() == old(uow.db.rows) + [NewBatchState(reference, sku, qty, eta)];
    uow.Commit();
    assert uow.log == log0 + [Entered, Committed];
    ghost var committed := uow.db.rows;
    uow.Rollback();
    assert uow.db.rows == committed;
  }

  /** Leaves the scope, then commits on the closed session: nothing is pending, so the store keeps its rows. */
  method CommitAfterExit(uow: UnitOfWork)
    requires uow.Valid()
    modifies uow, uow.db
    ensures uow.Valid()
    ensures uow.db.rows == old(uow.db.rows)
    ensures uow.log == old(uow.log) + [Entered, RolledBack, Closed, Committed]
  {
    ghost var log0 := uow.log;
    var _ := uow.Enter();
    assert uow.log == log0 + [Entered];
    uow.Exit();
    assert uow.log == log0 + [Entered, RolledBack, Closed];
    uow.Commit();
  }
}
