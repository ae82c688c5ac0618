/**
 * The allocation domain: order lines, batches and the batch priority order
 * (src/allocation/domain/models.py).
 */
module Models {
  import opened Wrappers

  /** The estimated arrival date of a batch, as a day number; `None` means in the warehouse now. */
  type Eta = Option<int>

  /** An item in an order. A value: two lines with the same three fields are the same line. */
  datatype OrderLine = OrderLine(orderId: string, sku: string, qty: int)

  /** The sum of the quantities of a set of lines, `sum(line.qty for line in lines)`. */
  ghost function SumQty(lines: set<OrderLine>): int
  {
    if lines == {} then 0
    else
      var l :| l in lines;
      l.qty + SumQty(lines - {l})
  }

  /** The sum does not depend on which line is taken out first. */
  lemma {:induction false} SumQtyRemove(lines: set<OrderLine>, l: OrderLine)
    requires l in lines
    ensures SumQty(lines) == l.qty + SumQty(lines - {l})
    decreases |lines|
  {
    var m :| m in lines && SumQty(lines) == m.qty + SumQty(lines - {m});
    if m != l {
      SumQtyRemove(lines - {m}, l);
      SumQtyRemove(lines - {l}, m);
      assert lines - {m} - {l} == lines - {l} - {m};
    }
  }

  /** Adding a line that is not yet in the set adds exactly its quantity. */
  lemma SumQtyAdd(lines: set<OrderLine>, l: OrderLine)
    requires l !in lines
    ensures SumQty(lines + {l}) == SumQty(lines) + l.qty
  {
    SumQtyRemove(lines + {l}, l);
    assert lines + {l} - {l} == lines;
  }

  /**
   * The value of a batch at one moment: its identity, its fixed fields and the
   * set of lines allocated to it. Quantities are derived from the set.
   */
  datatype BatchState = BatchState(
    reference: string,
    sku: string,
    purchasedQuantity: int,
    eta: Eta,
    allocations: set<OrderLine>)
  {
    ghost function AllocatedQuantity(): int
    {
      SumQty(allocations)
    }

    ghost function AvailableQuantity(): int
    {
      purchasedQuantity - AllocatedQuantity()
    }

    ghost predicate CanAllocate(line: OrderLine)
    {
      sku == line.sku && AvailableQuantity() >= line.qty
    }

    /** The batch after `allocate(line)`: the line is added only when it fits. */
    ghost function Allocate(line: OrderLine): BatchState
    {
      if CanAllocate(line) then this.(allocations := allocations + {line}) else this
    }

    /** The batch after `deallocate(line)`: the line is removed when present. */
    function Deallocate(line: OrderLine): BatchState
    {
      if line in allocations then this.(allocations := allocations - {line}) else this
    }
  }

  /** A batch freshly registered: nothing allocated yet. */
  function NewBatchState(ref: string, sku: string, qty: int, eta: Eta): BatchState
  {
    BatchState(ref, sku, qty, eta, {})
  }

  /** `a > b` between two arrival dates, as `Batch.__gt__` decides it. */
  predicate EtaAfter(a: Eta, b: Eta)
  {
    if a.None? then false
    else if b.None? then true
    else a.value > b.value
  }

  /**
   * A batch in stock: an entity whose identity is its reference and whose
   * allocation set is updated in place.
   */
  class Batch {
    const reference: string
    const sku: string
    const eta: Eta
    const purchasedQuantity: int
    var allocations: set<OrderLine>

    /** The current value of this batch. */
    function State(): BatchState
      reads this
    {
      BatchState(reference, sku, purchasedQuantity, eta, allocations)
    }

    constructor (ref: string, sku: string, qty: int, eta: Eta)
      ensures State() == NewBatchState(ref, sku, qty, eta)
    {
      this.reference := ref;
      this.sku := sku;
      this.eta := eta;
      this.purchasedQuantity := qty;
      this.allocations := {};
    }

    /** Rebuilds a batch from a stored value (what loading a row does). */
    constructor FromState(s: BatchState)
      ensures State() == s
    {
      this.reference := s.reference;
      this.sku := s.sku;
      this.eta := s.eta;
      this.purchasedQuantity := s.purchasedQuantity;
      this.allocations := s.allocations;
    }

    /** `allocated_quantity`: iterates over the allocation set and sums the quantities. */
    method AllocatedQuantity() returns (total: int)
      ensures total == SumQty(allocations)
    {
      total := 0;
      var rest := allocations;
      while rest != {}
        invariant rest <= allocations
        invariant total + SumQty(rest) == SumQty(allocations)
        decreases |rest|
      {
        var l :| l in rest;
        SumQtyRemove(rest, l);
        total := total + l.qty;
        rest := rest - {l};
      }
    }

    /** `available_quantity`: purchased minus allocated. */
    method AvailableQuantity() returns (n: int)
      ensures n == purchasedQuantity - SumQty(allocations)
      ensures n == State().AvailableQuantity()
    {
      var used := AllocatedQuantity();
      n := purchasedQuantity - used;
    }

    /** `can_allocate`: same SKU and enough available stock; equality is accepted. */
    method CanAllocate(line: OrderLine) returns (ok: bool)
      ensures ok <==> sku == line.sku && purchasedQuantity - SumQty(allocations) >= line.qty
      ensures ok == State().CanAllocate(line)
    {
      var available := AvailableQuantity();
      ok := sku == line.sku && available >= line.qty;
    }

    /** `allocate`: adds the line when it fits, otherwise changes nothing. */
    method Allocate(line: OrderLine)
      modifies this
      ensures State() == old(State()).Allocate(line)
      ensures old(State().CanAllocate(line)) ==> allocations == old(allocations) + {line}
      ensures !old(State().CanAllocate(line)) ==> allocations == old(allocations)
    {
      var ok := CanAllocate(line);
      if ok {
        allocations := allocations + {line};
      }
    }

    /** `deallocate`: removes the line when it is allocated; no error otherwise. */
    method Deallocate(line: OrderLine)
      modifies this
      ensures State() == old(State()).Deallocate(line)
      ensures allocations == old(allocations) - {line}
    {
      if line in allocations {
        allocations := allocations - {line};
      }
    }

    /** `__eq__`: another batch with the same reference; never a non-batch. */
    predicate Equals(other: object?)
      ensures Equals(other) ==> other != null && other is Batch
    {
      other is Batch && (other as Batch).reference == reference
    }

    /** `__hash__`: the hash is that of the reference. */
    function HashKey(): (h: string)
      ensures h == reference
    {
      reference
    }

    /** `__gt__`: this batch comes after `other` in allocation priority. */
    predicate GreaterThan(other: Batch)
      ensures GreaterThan(other) ==> eta.Some? && other != this
      ensures eta.Some? && other.eta.None? ==> GreaterThan(other)
    {
      EtaAfter(eta, other.eta)
    }
  }

  /** The values of a list of batches, position by position. */
  function States(s: seq<Batch>): seq<BatchState>
    reads s
  {
    seq(|s|, i requires 0 <= i < |s| reads s => s[i].State())
  }

  /** No batch object occurs twice in the list. */
  predicate Distinct(s: seq<Batch>)
  {
    forall i, j :: 0 <= i < j < |s| ==> s[i] != s[j]
  }

  /** `a < b`: Python answers it with the reflected `b.__gt__(a)`, the only comparison defined. */
  predicate LessThan(a: Batch, b: Batch)
    ensures LessThan(a, b) <==> b.eta.Some? && (a.eta.None? || a.eta.value < b.eta.value)
  {
    b.GreaterThan(a)
  }

  /** A new batch has nothing allocated, so all it purchased is available. */
  lemma NewBatchHasAllAvailable(ref: string, sku: string, qty: int, eta: Eta)
    ensures NewBatchState(ref, sku, qty, eta).AllocatedQuantity() == 0
    ensures NewBatchState(ref, sku, qty, eta).AvailableQuantity() == qty
  {
  }

  /** A line the batch cannot take leaves the batch as it was. */
  lemma AllocateRejectedChangesNothing(b: BatchState, line: OrderLine)
    requires !b.CanAllocate(line)
    ensures b.Allocate(line) == b
  {
  }

  /** A SKU mismatch is always rejected, whatever the quantities. */
  lemma SkuMismatchNeverAllocates(b: BatchState, line: OrderLine)
    requires b.sku != line.sku
    ensures !b.CanAllocate(line)
    ensures b.Allocate(line) == b
  {
  }

  /** Allocating a new line that fits takes exactly its quantity off the available stock. */
  lemma AllocateReducesAvailable(b: BatchState, line: OrderLine)
    requires b.CanAllocate(line) && line !in b.allocations
    ensures b.Allocate(line).allocations == b.allocations + {line}
    ensures b.Allocate(line).AvailableQuantity() == b.AvailableQuantity() - line.qty
  {
    SumQtyAdd(b.allocations, line);
  }

  /** Allocating an already allocated line changes nothing, so a second call is a no-op. */
  lemma AllocateIsIdempotent(b: BatchState, line: OrderLine)
    ensures line in b.allocations ==> b.Allocate(line) == b
    ensures b.Allocate(line).Allocate(line) == b.Allocate(line)
    ensures b.Allocate(line).Allocate(line).AvailableQuantity() == b.Allocate(line).AvailableQuantity()
  {
    if line in b.allocations {
      assert b.allocations + {line} == b.allocations;
    }
    var c := b.Allocate(line);
    if b.CanAllocate(line) {
      assert c.allocations + {line} == c.allocations;
    }
  }

  /** Allocation never drives the available quantity below zero. */
  lemma AllocateKeepsAvailableNonNegative(b: BatchState, line: OrderLine)
    requires b.AvailableQuantity() >= 0
    ensures b.Allocate(line).AvailableQuantity() >= 0
  {
    if b.CanAllocate(line) {
      if line in b.allocations {
        assert b.allocations + {line} == b.allocations;
      } else {
        AllocateReducesAvailable(b, line);
      }
    }
  }

  /** Deallocating a line that was never allocated changes nothing. */
  lemma DeallocateAbsentChangesNothing(b: BatchState, line: OrderLine)
    requires line !in b.allocations
    ensures b.Deallocate(line) == b
  {
  }

  /** Deallocating an allocated line removes only that line and gives its quantity back. */
  lemma DeallocateRestoresAvailable(b: BatchState, line: OrderLine)
    requires line in b.allocations
    ensures b.Deallocate(line).allocations == b.allocations - {line}
    ensures b.Deallocate(line).AvailableQuantity() == b.AvailableQuantity() + line.qty
  {
    SumQtyRemove(b.allocations, line);
  }

  /** Deallocation undoes an allocation of a line the batch did not hold. */
  lemma DeallocateUndoesAllocate(b: BatchState, line: OrderLine)
    requires line !in b.allocations
    ensures b.Allocate(line).Deallocate(line) == b
  {
    if b.CanAllocate(line) {
      assert b.allocations + {line} - {line} == b.allocations;
    }
  }

  /**
   * The allocation priority is a strict weak order: `>` is false when the
   * left batch has no ETA, true when only the left one has one, and otherwise
   * compares the dates; batches are incomparable exactly when their ETAs agree.
   */
  lemma PriorityIsStrictWeakOrder(a: Eta, b: Eta, c: Eta)
    ensures a.None? ==> !EtaAfter(a, b)
    ensures a.Some? && b.None? ==> EtaAfter(a, b)
    ensures a.Some? && b.Some? ==> (EtaAfter(a, b) <==> a.value > b.value)
    ensures !EtaAfter(a, a)
    ensures EtaAfter(a, b) ==> !EtaAfter(b, a)
    ensures EtaAfter(a, b) && EtaAfter(b, c) ==> EtaAfter(a, c)
    ensures !EtaAfter(a, b) && !EtaAfter(b, a) <==> a == b
  {
  }

  /** A batch without ETA is never preceded by another batch. */
  lemma NoEtaIsMinimal(a: Batch, b: Batch)
    requires a.eta.None?
    ensures !LessThan(b, a)
    ensures b.eta.Some? ==> LessThan(a, b)
  {
  }

  /** Batch equality is by reference alone and never holds against a non-batch. */
  lemma EqualityIsByReference(a: Batch, b: Batch, other: object?)
    ensures a.Equals(b) <==> a.reference == b.reference
    ensures a.Equals(a)
    ensures a.Equals(b) ==> b.Equals(a)
    ensures a.Equals(b) ==> a.HashKey() == b.HashKey()
    ensures !(other is Batch) ==> !a.Equals(other)
  {
  }
}
