/**
 * The allocation service layer (src/allocation/service_layer/allocation_service.py):
 * the first-fit allocation over a priority-sorted list of batches, the SKU
 * check, and the service that runs them inside a unit of work.
 */
module Service {
  import opened Wrappers
  import opened Models
  import opened Ordering
  import opened Uow

  /** The three domain failures the service reports instead of a batch reference. */
  datatype AllocationError = InvalidSku(sku: string) | OutOfStock | NoBatchesAvailable
  {
    /** The exception's `message`; `InvalidSku` keeps the default one and carries the SKU beside it. */
    function Message(): (m: string)
      ensures |m| > 0
    {
      match this
      case InvalidSku(_) => "Invalid SKU"
      case OutOfStock => "Out of stock"
      case NoBatchesAvailable => "No batches available"
    }
  }

  /** Each kind of failure has its own message, so a caller can tell the three apart by it. */
  lemma MessageIdentifiesKind(a: AllocationError, b: AllocationError)
    ensures a.Message() == b.Message() <==>
      (a.InvalidSku? && b.InvalidSku?) || (a.OutOfStock? && b.OutOfStock?) || (a.NoBatchesAvailable? && b.NoBatchesAvailable?)
  {
    if a.InvalidSku? && !b.InvalidSku? {
      assert a.Message()[0] == 'I';
    }
  }

  /** `is_valid_sku`: some batch in the list carries the SKU. */
  function IsValidSku(sku: string, batches: seq<Batch>): (r: bool)
    ensures r <==> exists i :: 0 <= i < |batches| && batches[i].sku == sku
  {
    sku in (set b | b in batches :: b.sku)
  }

  /** Which of the batch values can take the line, position by position. */
  ghost function Fits(states: seq<BatchState>, line: OrderLine): seq<bool>
  {
    seq(|states|, i requires 0 <= i < |states| => states[i].CanAllocate(line))
  }

  /** The ETAs of a list of batch values, position by position. */
  function StateEtas(states: seq<BatchState>): seq<Eta>
  {
    seq(|states|, i requires 0 <= i < |states| => states[i].eta)
  }

  /** The ETAs of the batch values are the ETAs of the batch objects: a batch's ETA never changes. */
  lemma EtasOfStates(s: seq<Batch>)
    ensures StateEtas(States(s)) == Etas(s)
  {
  }

  /**
   * `allocate(line, batches)`: sorts the list in place into priority order,
   * then gives the line to the first batch that can take it and returns that
   * batch's reference, or `None` when no batch can. The ghost `k` is the
   * chosen batch's position in the list as it was passed in.
   */
  method AllocateLine(line: OrderLine, batches: array<Batch>) returns (r: Option<string>, ghost k: int, ghost before: seq<BatchState>)
    modifies batches, set b | b in batches[..]
    ensures before == old(States(batches[..]))
    ensures batches[..] == PrioritySorted(old(batches[..]))
    ensures r.None? <==> forall j :: 0 <= j < |before| ==> !before[j].CanAllocate(line)
    ensures r.None? ==> k == -1 && forall b :: b in old(batches[..]) ==> b.State() == old(b.State())
    ensures r.Some? ==>
      && 0 <= k < |before|
      && IsPriorityFirst(StateEtas(before), Fits(before, line), k)
      && r.value == before[k].reference
      && old(batches[k]).State() == before[k].Allocate(line)
      && old(batches[k]).allocations == before[k].allocations + {line}
      && forall b :: b in old(batches[..]) && b != old(batches[k]) ==> b.State() == old(b.State())
  {
    ghost var s0 := batches[..];
    before := States(s0);
    ghost var order := SortOrder(Etas(s0), |s0|);
    EtasOfStates(s0);
    SortByPriority(batches);
    assert batches[..] == Permute(s0, order);
    assert forall q :: 0 <= q < batches.Length ==> batches[q] == s0[order[q]];
    ghost var sorted := States(batches[..]);
    assert sorted == Permute(before, order);
    ghost var p: int;
    r, p := FirstFit(line, batches);
    if r.Some? {
      k := order[p];
      SortedFirstFitIsPriorityFirst(before, Etas(s0), sorted, line, p);
    } else {
      SortedNoFitMeansNoFit(before, Etas(s0), sorted, line);
      k := -1;
    }
  }

  /** First fit over the sorted values picks the priority-first fitting value. */
  lemma SortedFirstFitIsPriorityFirst(before: seq<BatchState>, keys: seq<Eta>, sorted: seq<BatchState>, line: OrderLine, p: nat)
    requires keys == StateEtas(before)
    requires sorted == Permute(before, SortOrder(keys, |keys|))
    requires p < |sorted| && sorted[p].CanAllocate(line)
    requires forall q :: 0 <= q < p ==> !sorted[q].CanAllocate(line)
    ensures IsPriorityFirst(keys, Fits(before, line), SortOrder(keys, |keys|)[p])
  {
    var fits := Fits(before, line);
    var order := SortOrder(keys, |keys|);
    assert fits[order[p]] by {
      assert sorted[p] == before[order[p]];
    }
    forall q | 0 <= q < p ensures !fits[order[q]] {
      assert sorted[q] == before[order[q]];
    }
    FirstFitInSortedIsPriorityFirst(keys, fits, p);
  }

  /** When no sorted value fits, no value fits. */
  lemma SortedNoFitMeansNoFit(before: seq<BatchState>, keys: seq<Eta>, sorted: seq<BatchState>, line: OrderLine)
    requires keys == StateEtas(before)
    requires sorted == Permute(before, SortOrder(keys, |keys|))
    requires forall q :: 0 <= q < |sorted| ==> !sorted[q].CanAllocate(line)
    ensures forall j :: 0 <= j < |before| ==> !before[j].CanAllocate(line)
  {
    var fits := Fits(before, line);
    var order := SortOrder(keys, |keys|);
    forall q | 0 <= q < |keys| ensures !fits[order[q]] {
      assert sorted[q] == before[order[q]];
    }
    NoFitInSortedMeansNoFit(keys, fits);
    forall j | 0 <= j < |before| ensures !before[j].CanAllocate(line) {
      assert !fits[j];
    }
  }

  /** No value that can take the line has an earlier ETA than the `k`-th. */
  ghost predicate HasEarliestEta(rows: seq<BatchState>, line: OrderLine, k: nat)
    requires k < |rows|
  {
    forall j :: 0 <= j < |rows| && rows[j].CanAllocate(line) ==> !EtaAfter(rows[k].eta, rows[j].eta)
  }

  /** No fitting value has an earlier ETA than the priority-first one, whatever the list order. */
  lemma ChosenRowHasEarliestEta(rows: seq<BatchState>, line: OrderLine, k: nat)
    requires IsPriorityFirst(StateEtas(rows), Fits(rows, line), k)
    ensures HasEarliestEta(rows, line, k)
  {
    var keys, fits := StateEtas(rows), Fits(rows, line);
    PriorityFirstHasEarliestEta(keys, fits, k);
    forall j | 0 <= j < |rows| && rows[j].CanAllocate(line) ensures !EtaAfter(rows[k].eta, rows[j].eta) {
      assert fits[j] && keys[j] == rows[j].eta;
    }
  }

  /**
   * A warehouse batch (no ETA) is chosen over a shipment of the same SKU,
   * even when the shipment was registered first.
   */
  lemma PrefersWarehouseBatch()
    ensures var rows := [NewBatchState("shipment-batch", "RETRO-CLOCK", 100, Some(1)),
                         NewBatchState("in-stock-batch", "RETRO-CLOCK", 100, None)];
      IsPriorityFirst(StateEtas(rows), Fits(rows, OrderLine("oref", "RETRO-CLOCK", 10)), 1)
  {
  }

  /** Of two dated batches that both fit, the earlier arrival is chosen; a batch of another SKU never is. */
  lemma PrefersEarlierBatch()
    ensures var rows := [NewBatchState("later", "SKU-A", 100, Some(2)),
                         NewBatchState("early", "SKU-A", 100, Some(1)),
                         NewBatchState("other", "SKU-B", 100, None)];
      IsPriorityFirst(StateEtas(rows), Fits(rows, OrderLine("o1", "SKU-A", 3)), 1)
  {
  }

  /**
   * The scan of `allocate`: the first batch of the list, in list order, that
   * can take the line receives it. `p` is its position, -1 when none can.
   */
  method FirstFit(line: OrderLine, batches: array<Batch>) returns (r: Option<string>, ghost p: int)
    modifies set b | b in batches[..]
    ensures var before := old(States(batches[..]));
      && (r.None? <==> forall q :: 0 <= q < |before| ==> !before[q].CanAllocate(line))
      && (r.None? ==> p == -1)
      && (r.Some? ==>
            && 0 <= p < |before|
            && before[p].CanAllocate(line)
            && (forall q :: 0 <= q < p ==> !before[q].CanAllocate(line))
            && r.value == before[p].reference
            && batches[p].allocations == before[p].allocations + {line})
    ensures forall b :: b in old(batches[..]) && (r.None? || b != batches[p]) ==> b.State() == old(b.State())
    ensures r.Some? ==> batches[p].State() == old(batches[p].State()).Allocate(line)
  {
    ghost var before := States(batches[..]);
    var i := 0;
    while i < batches.Length
      invariant 0 <= i <= batches.Length
      invariant forall b :: b in batches[..] ==> b.State() == old(b.State())
      invariant forall q :: 0 <= q < i ==> !batches[q].State().CanAllocate(line)
    {
      var ok := batches[i].CanAllocate(line);
      if ok {
        assert before[i].CanAllocate(line);
        batches[i].Allocate(line);
        r, p := Some(batches[i].reference), i;
        return;
      }
      i := i + 1;
    }
    r, p := None, -1;
  }

  /**
   * The body of `AllocationService.allocate`'s unit-of-work scope, up to the
   * commit: checks the loaded batches and allocates the line among them. The
   * failures are checked in the source's order; only a success changes a batch.
   */
  method AllocateBatches(line: OrderLine, batches: array<Batch>)
    returns (r: Result<string, AllocationError>, ghost k: int, ghost before: seq<BatchState>)
    modifies batches, set b | b in batches[..]
    ensures before == old(States(batches[..]))
    ensures r == Failure(NoBatchesAvailable) <==> before == []
    ensures r == Failure(InvalidSku(line.sku)) <==>
      before != [] && forall j :: 0 <= j < |before| ==> before[j].sku != line.sku
    ensures r == Failure(OutOfStock) <==>
      && (exists j :: 0 <= j < |before| && before[j].sku == line.sku)
      && forall j :: 0 <= j < |before| ==> !before[j].CanAllocate(line)
    ensures r.Success? <==> exists j :: 0 <= j < |before| && before[j].CanAllocate(line)
    ensures r.Failure? ==> forall b :: b in old(batches[..]) ==> b.State() == old(b.State())
    ensures r.Success? ==>
      && 0 <= k < |before|
      && IsPriorityFirst(StateEtas(before), Fits(before, line), k)
      && r.value == before[k].reference
      && old(batches[k]).State() == before[k].Allocate(line)
      && forall b :: b in old(batches[..]) && b != old(batches[k]) ==> b.State() == old(b.State())
  {
    before := States(batches[..]);
    k := -1;
    if batches.Length == 0 {
      return Failure(NoBatchesAvailable), k, before;
    }
    assert forall j :: 0 <= j < |before| ==> before[j].sku == batches[j].sku;
    if !IsValidSku(line.sku, batches[..]) {
      return Failure(InvalidSku(line.sku)), k, before;
    }
    var ref: Option<string>;
    ghost var before': seq<BatchState>;
    ref, k, before' := AllocateLine(line, batches);
    if ref.None? {
      r := Failure(OutOfStock);
    } else {
      r := Success(ref.value);
    }
  }

  /** The service that registers batches and allocates order lines, each call in one unit-of-work scope. */
  class AllocationService {
    const uow: UnitOfWork

    constructor (uow: UnitOfWork)
      ensures this.uow == uow
    {
      this.uow := uow;
    }

    /**
     * `AllocationService.allocate`: fails with `NoBatchesAvailable` when the
     * store is empty, else with `InvalidSku` when no batch has the SKU, else
     * with `OutOfStock` when no batch can take the line; otherwise commits the
     * allocation to the priority-first fitting batch and returns its reference.
     * Either way the scope exits, so a failure leaves the store as it was.
     */
    method Allocate(orderId: string, sku: string, qty: int) returns (r: Result<string, AllocationError>)
      requires uow.Valid()
      modifies uow, uow.db
      ensures uow.Valid()
      ensures r == Failure(NoBatchesAvailable) <==> old(uow.db.rows) == []
      ensures r == Failure(InvalidSku(sku)) <==>
        old(uow.db.rows) != [] && forall j :: 0 <= j < |old(uow.db.rows)| ==> old(uow.db.rows)[j].sku != sku
      ensures r == Failure(OutOfStock) <==>
        && (exists j :: 0 <= j < |old(uow.db.rows)| && old(uow.db.rows)[j].sku == sku)
        && forall j :: 0 <= j < |old(uow.db.rows)| ==> !old(uow.db.rows)[j].CanAllocate(OrderLine(orderId, sku, qty))
      ensures r.Success? <==>
        exists j :: 0 <= j < |old(uow.db.rows)| && old(uow.db.rows)[j].CanAllocate(OrderLine(orderId, sku, qty))
      ensures r.Failure? ==> uow.db.rows == old(uow.db.rows)
      ensures r.Failure? ==> uow.log == old(uow.log) + [Entered, RolledBack, Closed]
      ensures r.Success? ==> uow.log == old(uow.log) + [Entered, Committed, RolledBack, Closed]
      ensures var rows := old(uow.db.rows); var line := OrderLine(orderId, sku, qty);
        r.Success? ==>
          exists k ::
            && 0 <= k < |rows|
            && IsPriorityFirst(StateEtas(rows), Fits(rows, line), k)
            && HasEarliestEta(rows, line, k)
            && r.value == rows[k].reference
            && uow.db.rows == rows[k := rows[k].Allocate(line)]
    {
      ghost var rows := uow.db.rows;
      ghost var log0 := uow.log;
      var line := OrderLine(orderId, sku, qty);
      var _ := uow.Enter();
      var batches := uow.batches.FindAll();
      ghost var tracked := uow.session.tracked;
      ghost var session := uow.session;
      assert uow.log == log0 + [Entered];
      ghost var k: int;
      ghost var before: seq<BatchState>;
      r, k, before := AllocateBatches(line, batches);
      assert uow.log == log0 + [Entered] && uow.session == session && uow.session.tracked == tracked;
      assert before == rows;
      if r.Failure? {
        uow.Exit();
        assert uow.log == log0 + [Entered, RolledBack, Closed];
        return;
      }
      forall j | 0 <= j < |rows| && j != k
        ensures tracked[j].State() == rows[j]
      {
        assert tracked[j] != tracked[k];
      }
      ChosenRowHasEarliestEta(rows, line, k);
      CommitAndExit(line, rows, k);
      assert uow.log == log0 + [Entered, Committed, RolledBack, Closed];
    }

    /** The end of a successful scope: commit the working copy, then exit. */
    method CommitAndExit(line: OrderLine, ghost rows: seq<BatchState>, ghost k: int)
      requires uow.Valid() && uow.session != null && uow.session.isOpen
      requires 0 <= k < |rows| == |uow.session.tracked|
      requires uow.session.tracked[k].State() == rows[k].Allocate(line)
      requires forall j :: 0 <= j < |rows| && j != k ==> uow.session.tracked[j].State() == rows[j]
      modifies uow, uow.db, uow.session
      ensures uow.Valid()
      ensures uow.db.rows == rows[k := rows[k].Allocate(line)]
      ensures uow.log == old(uow.log) + [Committed, RolledBack, Closed]
    {
      ghost var log0 := uow.log;
      ghost var after := rows[k := rows[k].Allocate(line)];
      assert uow.session.Working() == after;
      uow.Commit();
      assert uow.db.rows == after;
      assert uow.log == log0 + [Committed];
      uow.Exit();
      assert uow.log == log0 + [Committed, RolledBack, Closed];
    }

    /** `add_batch`: stores one new batch with nothing allocated and commits. */
    method AddBatch(ref: string, sku: string, qty: int, eta: Eta)
      requires uow.Valid()
      modifies uow, uow.db
      ensures uow.Valid()
      ensures uow.db.rows == old(uow.db.rows) + [NewBatchState(ref, sku, qty, eta)]
      ensures uow.log == old(uow.log) + [Entered, Committed, RolledBack, Closed]
    {
      var _ := uow.Enter();
      var batch := new Batch(ref, sku, qty, eta);
      ghost var tracked := uow.session.tracked;
      uow.batches.Save(batch);
      assert uow.session.tracked == tracked + [batch];
      assert uow.session.Working() == old(uow.db.rows) + [NewBatchState(ref, sku, qty, eta)];
      uow.Commit();
      uow.Exit();
    }
  }
}
