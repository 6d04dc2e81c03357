/** What every reachable deployment keeps about entries, their allocations and the operations that
    draw on them. */
module EntryLedger {
  import opened Money
  import opened Tables
  import opened Wallets
  import opened Entries
  import opened Operations

  predicate Standing(status: OpStatus) {
    status.Pending? || status.Approved?
  }

  predicate LineSound(wallets: seq<Wallet>, company: Company, line: Line) {
    && line.amount >= 0
    && line.wallet < |wallets|
    && wallets[line.wallet].company == company
    && wallets[line.wallet].currency == line.currency
  }

  predicate LinesSound(wallets: seq<Wallet>, company: Company, lines: seq<Line>) {
    forall i :: 0 <= i < |lines| ==> LineSound(wallets, company, lines[i])
  }

  /** The cached status is what a recomputation would give, unless the entry was cancelled. */
  predicate StatusSound(f: Funds, e: Id)
    requires e < |f.entries|
  {
    var entry := f.entries[e];
    var allocations := AllocationsOf(f.allocations, e);
    || (entry.status.EntryCancelled? && allocations == [] && entry.mergedInto.None?)
    || entry.status == RecomputeStatus(entry.lines, allocations)
  }

  predicate Solvent(f: Funds, e: Id)
    requires e < |f.entries|
  {
    forall c :: Available(f, e, c) >= 0
  }

  predicate EntrySound(wallets: seq<Wallet>, f: Funds, e: Id)
    requires e < |f.entries|
  {
    && LinesSound(wallets, f.entries[e].company, f.entries[e].lines)
    && (f.entries[e].mergedInto.Some? ==> f.entries[e].mergedInto.value < |f.entries|)
    && Solvent(f, e)
    && StatusSound(f, e)
  }

  /** An allocation is what one standing operation reserved on its entry when it was created. */
  predicate AllocationSound(f: Funds, ops: seq<Op>, a: Allocation) {
    && a.entry < |f.entries|
    && a.target < |ops|
    && ops[a.target].entry == Some(a.entry)
    && ops[a.target].currency == a.currency
    && ops[a.target].split.allocation == a.amount > 0
    && Standing(ops[a.target].status)
  }

  /** An operation draws on an entry of its own company, and its reservation stands while it does. */
  predicate DrawSound(f: Funds, ops: seq<Op>, o: Id)
    requires o < |ops|
  {
    ops[o].entry.Some? ==>
      && Owned(f, ops[o].company, ops[o].entry.value)
      && (ops[o].split.allocation > 0 && Standing(ops[o].status) ==> FindTarget(f.allocations, o).Some?)
  }

  predicate Targets(allocations: seq<Allocation>) {
    forall i, j :: 0 <= i < j < |allocations| ==> allocations[i].target != allocations[j].target
  }

  ghost predicate EntriesSound(wallets: seq<Wallet>, f: Funds, ops: seq<Op>) {
    && (forall e :: 0 <= e < |f.entries| ==> EntrySound(wallets, f, e))
    && (forall i :: 0 <= i < |f.allocations| ==> AllocationSound(f, ops, f.allocations[i]))
    && Targets(f.allocations)
    && (forall o :: 0 <= o < |ops| ==> DrawSound(f, ops, o))
  }

  // ---- allocation rows ---------------------------------------------------------------------

  lemma {:induction false} AllocationsOfConcat(a: seq<Allocation>, b: seq<Allocation>, e: Id)
    ensures AllocationsOf(a + b, e) == AllocationsOf(a, e) + AllocationsOf(b, e)
  {
    if a == [] {
      assert a + b == b;
    } else {
      assert (a + b)[1..] == a[1..] + b;
      AllocationsOfConcat(a[1..], b, e);
      var x, y := AllocationsOf(a[1..], e), AllocationsOf(b, e);
      assert ([a[0]] + x) + y == [a[0]] + (x + y);
    }
  }

  lemma {:induction false} SumAllocatedConcat(a: seq<Allocation>, b: seq<Allocation>, c: Currency)
    ensures SumAllocated(a + b, c) == SumAllocated(a, c) + SumAllocated(b, c)
  {
    if a == [] {
      assert a + b == b;
    } else {
      assert (a + b)[1..] == a[1..] + b;
      SumAllocatedConcat(a[1..], b, c);
    }
  }

  lemma {:induction false} AllocationsOfNone(allocations: seq<Allocation>, e: Id)
    requires forall i :: 0 <= i < |allocations| ==> allocations[i].entry != e
    ensures AllocationsOf(allocations, e) == []
  {
    if allocations != [] {
      AllocationsOfNone(allocations[1..], e);
    }
  }

  /** One more row: it counts on its own entry, in its own currency. */
  lemma RowAdded(allocations: seq<Allocation>, a: Allocation, e: Id, c: Currency)
    ensures AllocationsOf(allocations + [a], e)
         == AllocationsOf(allocations, e) + if a.entry == e then [a] else []
    ensures SumAllocated(AllocationsOf(allocations + [a], e), c)
         == SumAllocated(AllocationsOf(allocations, e), c) + if a.entry == e && a.currency == c then a.amount else 0
  {
    AllocationsOfConcat(allocations, [a], e);
    assert AllocationsOf([a], e) == if a.entry == e then [a] else [];
    SumAllocatedConcat(AllocationsOf(allocations, e), AllocationsOf([a], e), c);
  }

  /** One row less. */
  lemma RowRemoved(allocations: seq<Allocation>, i: nat, e: Id, c: Currency)
    requires i < |allocations|
    ensures allocations[i].entry != e ==> AllocationsOf(RemoveAt(allocations, i), e) == AllocationsOf(allocations, e)
    ensures SumAllocated(AllocationsOf(RemoveAt(allocations, i), e), c)
         == SumAllocated(AllocationsOf(allocations, e), c)
            - if allocations[i].entry == e && allocations[i].currency == c then allocations[i].amount else 0
  {
    var a, b, row := allocations[..i], allocations[i + 1..], allocations[i];
    assert allocations == (a + [row]) + b;
    AllocationsOfConcat(a + [row], b, e);
    RowAdded(a, row, e, c);
    AllocationsOfConcat(a, b, e);
    SumAllocatedConcat(AllocationsOf(a + [row], e), AllocationsOf(b, e), c);
    SumAllocatedConcat(AllocationsOf(a, e), AllocationsOf(b, e), c);
  }

  lemma TargetAdded(allocations: seq<Allocation>, a: Allocation, o: Id)
    ensures FindTarget(allocations + [a], o).Some? <==> FindTarget(allocations, o).Some? || a.target == o
  {
    var after := allocations + [a];
    assert after[|allocations|] == a;
    if FindTarget(allocations, o).Some? {
      assert after[FindTarget(allocations, o).value].target == o;
    }
  }

  lemma TargetRemoved(allocations: seq<Allocation>, i: nat, o: Id)
    requires i < |allocations| && allocations[i].target != o
    ensures FindTarget(RemoveAt(allocations, i), o).Some? <==> FindTarget(allocations, o).Some?
  {
    var after := RemoveAt(allocations, i);
    if FindTarget(allocations, o).Some? {
      var k := FindTarget(allocations, o).value;
      assert after[if k < i then k else k - 1].target == o;
    }
    if FindTarget(after, o).Some? {
      var k := FindTarget(after, o).value;
      assert allocations[if k < i then k else k + 1].target == o;
    }
  }

  lemma AvailableIsTotal(f: Funds, e: Id, c: Currency)
    requires e < |f.entries|
    ensures Get(Totals(f.entries[e].lines, AllocationsOf(f.allocations, e)), c) == Available(f, e, c)
  {
    var lines, allocations := f.entries[e].lines, AllocationsOf(f.allocations, e);
    if c !in CurrenciesOf(lines, allocations) {
      NoLines(lines, c);
      NoAllocations(allocations, c);
    }
  }

  lemma {:induction false} NoLines(lines: seq<Line>, c: Currency)
    requires c !in (set line | line in lines :: line.currency)
    ensures SumLines(lines, c) == 0
  {
    if lines != [] {
      assert lines[0] in lines;
      assert forall line :: line in lines[1..] ==> line in lines;
      NoLines(lines[1..], c);
    }
  }

  lemma {:induction false} NoAllocations(allocations: seq<Allocation>, c: Currency)
    requires c !in (set a | a in allocations :: a.currency)
    ensures SumAllocated(allocations, c) == 0
  {
    if allocations != [] {
      assert allocations[0] in allocations;
      assert forall a :: a in allocations[1..] ==> a in allocations;
      NoAllocations(allocations[1..], c);
    }
  }

  lemma {:induction false} AllocationsOfSome(allocations: seq<Allocation>, e: Id)
    ensures AllocationsOf(allocations, e) != [] <==> exists i :: 0 <= i < |allocations| && allocations[i].entry == e
  {
    if allocations != [] {
      AllocationsOfSome(allocations[1..], e);
      assert forall i :: 0 < i < |allocations| ==> allocations[i] == allocations[1..][i - 1];
      if AllocationsOf(allocations[1..], e) != [] {
        var i :| 0 <= i < |allocations[1..]| && allocations[1..][i].entry == e;
        assert allocations[i + 1].entry == e;
      }
    }
  }

  predicate HasAllocation(f: Funds, e: Id) {
    exists i :: 0 <= i < |f.allocations| && f.allocations[i].entry == e
  }

  /** What the cached status says of the rows: CONSUMED when something is allocated and nothing is left in
      any currency, PARTIALLY_ALLOCATED when something is allocated and something is left, UNALLOCATED
      when nothing is allocated and the entry does not stand cancelled. */
  ghost predicate StatusTells(f: Funds, e: Id)
    requires e < |f.entries|
  {
    var status := f.entries[e].status;
    && (status.Consumed? <==> HasAllocation(f, e) && forall c :: Available(f, e, c) == 0)
    && (status.PartiallyAllocated? <==> HasAllocation(f, e) && exists c :: Available(f, e, c) > 0)
    && (status.Unallocated? <==> !HasAllocation(f, e) && !status.EntryCancelled?)
    && (status.EntryCancelled? ==> !HasAllocation(f, e))
  }

  lemma SoundStatusTells(wallets: seq<Wallet>, f: Funds, e: Id)
    requires e < |f.entries| && EntrySound(wallets, f, e)
    ensures StatusTells(f, e)
  {
    var totals := Totals(f.entries[e].lines, AllocationsOf(f.allocations, e));
    AllocationsOfSome(f.allocations, e);
    forall c ensures Get(totals, c) == Available(f, e, c) >= 0 {
      AvailableIsTotal(f, e, c);
    }
    hide Totals, Available, AllocationsOf;
    assert forall c | c in totals :: totals[c] == Get(totals, c);
    assert forall c | c !in totals :: Get(totals, c) == 0;
  }

  // ---- what each change keeps --------------------------------------------------------------

  /** Companies and currencies of wallets are fixed. */
  predicate SameOwners(a: seq<Wallet>, b: seq<Wallet>) {
    |a| <= |b| && forall w :: 0 <= w < |a| ==> a[w].company == b[w].company && a[w].currency == b[w].currency
  }

  lemma WalletsKeep(a: seq<Wallet>, b: seq<Wallet>, f: Funds, ops: seq<Op>)
    requires EntriesSound(a, f, ops) && SameOwners(a, b)
    ensures EntriesSound(b, f, ops)
  {
    forall e | 0 <= e < |f.entries| ensures EntrySound(b, f, e) {
      assert EntrySound(a, f, e);
      forall i | 0 <= i < |f.entries[e].lines| ensures LineSound(b, f.entries[e].company, f.entries[e].lines[i]) {
        assert LineSound(a, f.entries[e].company, f.entries[e].lines[i]);
      }
    }
  }

  /** A new entry, and the same rows otherwise up to a merge mark. */
  lemma EntryAddedKeeps(wallets: seq<Wallet>, f: Funds, ops: seq<Op>, marked: seq<Entry>, entry: Entry)
    requires EntriesSound(wallets, f, ops)
    requires LinesSound(wallets, entry.company, entry.lines) && entry.mergedInto.None? && entry.status.Unallocated?
    requires |marked| == |f.entries|
    requires forall e :: 0 <= e < |marked| ==>
      && marked[e] == f.entries[e].(mergedInto := marked[e].mergedInto)
      && (marked[e].mergedInto == f.entries[e].mergedInto
          || (marked[e].mergedInto == Some(|f.entries|) && !f.entries[e].status.EntryCancelled?))
    ensures EntriesSound(wallets, f.(entries := marked + [entry]), ops)
  {
    var g := f.(entries := marked + [entry]);
    var n := |marked|;
    forall i | 0 <= i < |f.allocations|
      ensures AllocationSound(g, ops, g.allocations[i]) && f.allocations[i].entry != n
    {
      assert AllocationSound(f, ops, f.allocations[i]);
    }
    AllocationsOfNone(f.allocations, n);
    forall e | 0 <= e < |g.entries| ensures EntrySound(wallets, g, e) {
      if e < n {
        assert EntrySound(wallets, f, e);
        assert g.entries[e] == marked[e];
        assert forall c :: Available(g, e, c) == Available(f, e, c);
      } else {
        assert g.entries[e] == entry;
        forall c ensures Available(g, e, c) >= 0 {
          SumLinesNonNegative(entry.lines, c);
        }
      }
    }
    forall o | 0 <= o < |ops| ensures DrawSound(g, ops, o) {
      assert DrawSound(f, ops, o);
    }
  }

  lemma StatusChangeKeeps(wallets: seq<Wallet>, f: Funds, ops: seq<Op>, e: Id)
    requires EntriesSound(wallets, f, ops) && e < |f.entries|
    requires AllocationsOf(f.allocations, e) == [] && f.entries[e].mergedInto.None?
    ensures EntriesSound(wallets, f.(entries := f.entries[e := f.entries[e].(status := EntryCancelled)]), ops)
  {
    var g := f.(entries := f.entries[e := f.entries[e].(status := EntryCancelled)]);
    forall k | 0 <= k < |g.entries| ensures EntrySound(wallets, g, k) {
      assert EntrySound(wallets, f, k);
      assert forall c :: Available(g, k, c) == Available(f, k, c);
    }
    forall i | 0 <= i < |g.allocations| ensures AllocationSound(g, ops, g.allocations[i]) {
      assert AllocationSound(f, ops, f.allocations[i]);
    }
    forall o | 0 <= o < |ops| ensures DrawSound(g, ops, o) {
      assert DrawSound(f, ops, o);
    }
  }

  /** A new operation that draws nothing, or on an entry without a reservation. */
  lemma OpAddedKeeps(wallets: seq<Wallet>, f: Funds, ops: seq<Op>, op: Op)
    requires EntriesSound(wallets, f, ops)
    requires op.entry.Some? ==> Owned(f, op.company, op.entry.value) && op.split.allocation <= 0
    ensures EntriesSound(wallets, f, ops + [op])
  {
    var after := ops + [op];
    forall i | 0 <= i < |f.allocations| ensures AllocationSound(f, after, f.allocations[i]) {
      assert AllocationSound(f, ops, f.allocations[i]);
    }
    forall o | 0 <= o < |after| ensures DrawSound(f, after, o) {
      assert o < |ops| ==> DrawSound(f, ops, o);
    }
  }

  /** A new operation with a reservation within what its entry has available. */
  lemma ReservationKeeps(wallets: seq<Wallet>, f: Funds, ops: seq<Op>, op: Op)
    requires EntriesSound(wallets, f, ops)
    requires op.entry.Some? && Owned(f, op.company, op.entry.value) && Standing(op.status)
    requires 0 < op.split.allocation <= Available(f, op.entry.value, op.currency)
    ensures EntriesSound(
      wallets, Reserved(f, Allocation(op.entry.value, |ops|, op.currency, op.split.allocation)), ops + [op])
  {
    var a := Allocation(op.entry.value, |ops|, op.currency, op.split.allocation);
    var g, after := Reserved(f, a), ops + [op];
    forall e | 0 <= e < |g.entries| ensures EntrySound(wallets, g, e) {
      assert EntrySound(wallets, f, e);
      RowAdded(f.allocations, a, e, XOF);
      assert AllocationsOf(f.allocations, e) + [] == AllocationsOf(f.allocations, e);
      forall c ensures Available(g, e, c) >= 0 {
        RowAdded(f.allocations, a, e, c);
        assert Available(f, e, c) >= 0;
      }
    }
    forall i | 0 <= i < |g.allocations| ensures AllocationSound(g, after, g.allocations[i]) {
      assert i < |f.allocations| ==> AllocationSound(f, ops, f.allocations[i]);
    }
    assert forall i :: 0 <= i < |f.allocations| ==> AllocationSound(f, ops, f.allocations[i]);
    forall o | 0 <= o < |after| ensures DrawSound(g, after, o) {
      TargetAdded(f.allocations, a, o);
      assert o < |ops| ==> DrawSound(f, ops, o);
    }
  }

  /** Approval leaves reservations alone. */
  lemma ApprovalKeeps(wallets: seq<Wallet>, f: Funds, ops: seq<Op>, o: Id, after: Op)
    requires EntriesSound(wallets, f, ops) && o < |ops| && Standing(ops[o].status) && Standing(after.status)
    requires after == ops[o].(status := after.status, wallet := after.wallet)
    ensures EntriesSound(wallets, f, ops[o := after])
  {
    var ops' := ops[o := after];
    forall i | 0 <= i < |f.allocations| ensures AllocationSound(f, ops', f.allocations[i]) {
      assert AllocationSound(f, ops, f.allocations[i]);
    }
    forall k | 0 <= k < |ops'| ensures DrawSound(f, ops', k) {
      assert DrawSound(f, ops, k);
    }
  }

  /** A release gives one entry its reservation back, and leaves the others as they are. */
  lemma ReleaseKeepsEntry(wallets: seq<Wallet>, f: Funds, ops: seq<Op>, o: Id, k: Id)
    requires EntriesSound(wallets, f, ops) && o < |ops| && ops[o].entry.Some?
    requires ops[o].entry.value < |f.entries| && k < |f.entries|
    ensures EntrySound(wallets, Released(f, ops[o].entry.value, o), k)
  {
    var g, found := Released(f, ops[o].entry.value, o), FindTarget(f.allocations, o);
    assert EntrySound(wallets, f, k);
    if found.Some? {
      assert AllocationSound(f, ops, f.allocations[found.value]);
      RowRemoved(f.allocations, found.value, k, XOF);
    }
    forall c ensures Available(g, k, c) >= 0 {
      assert Available(f, k, c) >= 0;
      if found.Some? {
        RowRemoved(f.allocations, found.value, k, c);
      }
    }
  }

  /** Rejection and cancellation release the reservation and recompute the entry's status. */
  lemma ReleaseKeeps(wallets: seq<Wallet>, f: Funds, ops: seq<Op>, o: Id, status: OpStatus)
    requires EntriesSound(wallets, f, ops) && o < |ops| && ops[o].entry.Some?
    requires ops[o].entry.value < |f.entries| && !Standing(status)
    ensures EntriesSound(wallets, Released(f, ops[o].entry.value, o), ops[o := ops[o].(status := status)])
  {
    var e := ops[o].entry.value;
    var g, ops' := Released(f, e, o), ops[o := ops[o].(status := status)];
    var found := FindTarget(f.allocations, o);
    if found.Some? {
      assert AllocationSound(f, ops, f.allocations[found.value]);
    }
    forall k | 0 <= k < |g.entries| ensures EntrySound(wallets, g, k) {
      ReleaseKeepsEntry(wallets, f, ops, o, k);
    }
    forall i | 0 <= i < |g.allocations| ensures AllocationSound(g, ops', g.allocations[i]) {
      var j := if found.Some? && i >= found.value then i + 1 else i;
      assert g.allocations[i] == f.allocations[j] && AllocationSound(f, ops, f.allocations[j]);
    }
    forall k | 0 <= k < |ops'| ensures DrawSound(g, ops', k) {
      assert DrawSound(f, ops, k);
      if found.Some? && k != o {
        TargetRemoved(f.allocations, found.value, k);
      }
    }
    ReleasedTargets(f.allocations, found);
  }

  lemma ReleasedTargets(allocations: seq<Allocation>, found: Option<nat>)
    ensures Targets(allocations) && found.Some? && found.value < |allocations| ==>
      Targets(RemoveAt(allocations, found.value))
  {
  }

  lemma ClosureKeeps(wallets: seq<Wallet>, f: Funds, ops: seq<Op>, o: Id, status: OpStatus)
    requires EntriesSound(wallets, f, ops) && o < |ops| && ops[o].entry.None?
    ensures EntriesSound(wallets, f, ops[o := ops[o].(status := status)])
  {
    var ops' := ops[o := ops[o].(status := status)];
    forall i | 0 <= i < |f.allocations| ensures AllocationSound(f, ops', f.allocations[i]) {
      assert AllocationSound(f, ops, f.allocations[i]);
    }
    forall k | 0 <= k < |ops'| ensures DrawSound(f, ops', k) {
      assert DrawSound(f, ops, k);
    }
  }
}
