/** Conservation of the money received through entries, over every run of service calls. */
module Conservation {
  import opened Money
  import opened Sums
  import opened Tables
  import opened Wallets
  import opened Entries
  import opened EntryLedger
  import Merging
  import O = Operations
  import N = Nationals
  import opened Deployment

  // ---- the four buckets --------------------------------------------------------------------

  predicate FromEntry(source: Source) {
    source.EntryReceipt? || source.EntryCancellation?
  }

  /** Received minus paid back: wallet IN from entries minus wallet OUT from entry cancellations,
      for one company and currency. */
  function Flow(moves: seq<WalletMove>, wallets: seq<Wallet>, company: Company, c: Currency): int {
    if moves == [] then 0
    else
      var m := moves[|moves| - 1];
      Flow(moves[..|moves| - 1], wallets, company, c)
      + if FromEntry(m.source) && m.wallet < |wallets| && wallets[m.wallet].company == company && m.currency == c
        then Signed(m.direction, m.amount) else 0
  }

  /** An entry that can still be drawn on or paid back: neither merged away nor cancelled. */
  predicate IsLive(entry: Entry) {
    entry.mergedInto.None? && !entry.status.EntryCancelled?
  }

  function LiveValue(f: Funds, e: Id, company: Company, c: Currency): int
    requires e < |f.entries|
  {
    if f.entries[e].company == company && IsLive(f.entries[e]) then Available(f, e, c) else 0
  }

  function LiveValues(f: Funds, company: Company, c: Currency): (s: seq<int>)
    ensures |s| == |f.entries|
  {
    seq(|f.entries|, e requires 0 <= e < |f.entries| => LiveValue(f, e, company, c))
  }

  /** Available money on live entries. */
  function Live(f: Funds, company: Company, c: Currency): int {
    Sum(LiveValues(f, company, c))
  }

  function ReserveValue(f: Funds, a: Allocation, company: Company, c: Currency): int {
    if a.entry < |f.entries| && f.entries[a.entry].company == company && a.currency == c then a.amount else 0
  }

  function ReserveValues(f: Funds, company: Company, c: Currency): (s: seq<int>)
    ensures |s| == |f.allocations|
  {
    seq(|f.allocations|, i requires 0 <= i < |f.allocations| => ReserveValue(f, f.allocations[i], company, c))
  }

  /** Money held by existing allocations, on live and merged entries alike. */
  function Reserve(f: Funds, company: Company, c: Currency): int {
    Sum(ReserveValues(f, company, c))
  }

  predicate Closes(l: Ledger, ev: Event) {
    ev.CloseOperation? && Applied(l, ev).Ok? && l.desk.ops[ev.op].entry.Some?
  }

  /** What the release of an operation's reservation frees. */
  function Freed(f: Funds, target: Id, company: Company, c: Currency): int {
    var found := FindTarget(f.allocations, target);
    if found.Some? then ReserveValue(f, f.allocations[found.value], company, c) else 0
  }

  /** Money this event frees on an entry that was merged away, where nobody can use it. */
  function StrandedBy(l: Ledger, ev: Event, company: Company, c: Currency): int {
    if !Closes(l, ev) then 0
    else
      if l.funds.entries[l.desk.ops[ev.op].entry.value].mergedInto.Some?
      then Freed(l.funds, ev.op, company, c) else 0
  }

  /** This event closes an operation whose entry has been cancelled meanwhile; recomputing the
      entry's status brings the entry back. */
  predicate Revives(l: Ledger, ev: Event) {
    Closes(l, ev) && l.funds.entries[l.desk.ops[ev.op].entry.value].status.EntryCancelled?
  }

  /** Money that reappears on a revived entry although its wallets were already paid back. */
  function PhantomBy(l: Ledger, ev: Event, company: Company, c: Currency): int {
    if !Revives(l, ev) then 0
    else
      var entry := l.funds.entries[l.desk.ops[ev.op].entry.value];
      if entry.company == company then SumLines(entry.lines, c) else 0
  }

  function Stranded(events: seq<Event>, company: Company, c: Currency): int {
    if events == [] then 0
    else
      var before := events[..|events| - 1];
      Stranded(before, company, c) + StrandedBy(Exec(before), events[|events| - 1], company, c)
  }

  function Phantom(events: seq<Event>, company: Company, c: Currency): int {
    if events == [] then 0
    else
      var before := events[..|events| - 1];
      Phantom(before, company, c) + PhantomBy(Exec(before), events[|events| - 1], company, c)
  }

  /** What the tables hold beyond what the wallets say was received. */
  function Excess(l: Ledger, company: Company, c: Currency): int {
    Live(l.funds, company, c) + Reserve(l.funds, company, c) - Flow(l.till.moves, l.till.wallets, company, c)
  }

  // ---- wallet flow -------------------------------------------------------------------------

  lemma {:induction false} FlowSameOwners(
    moves: seq<WalletMove>, a: seq<Wallet>, b: seq<Wallet>, company: Company, c: Currency)
    requires SameOwners(a, b) && forall i :: 0 <= i < |moves| ==> moves[i].wallet < |a|
    ensures Flow(moves, a, company, c) == Flow(moves, b, company, c)
  {
    if moves != [] {
      FlowSameOwners(moves[..|moves| - 1], a, b, company, c);
    }
  }

  lemma {:induction false} FlowAppended(
    moves: seq<WalletMove>, more: seq<WalletMove>, wallets: seq<Wallet>, company: Company, c: Currency)
    ensures Flow(moves + more, wallets, company, c)
         == Flow(moves, wallets, company, c) + Flow(more, wallets, company, c)
  {
    if more == [] {
      assert moves + more == moves;
    } else {
      var n := |more| - 1;
      assert (moves + more)[..|moves + more| - 1] == moves + more[..n];
      FlowAppended(moves, more[..n], wallets, company, c);
    }
  }

  lemma {:induction false} FlowOutside(moves: seq<WalletMove>, wallets: seq<Wallet>, company: Company, c: Currency)
    requires forall i :: 0 <= i < |moves| ==> !FromEntry(moves[i].source)
    ensures Flow(moves, wallets, company, c) == 0
  {
    if moves != [] {
      FlowOutside(moves[..|moves| - 1], wallets, company, c);
    }
  }

  /** One IN (or OUT) movement per stored line moves the flow by the lines' total. */
  lemma {:induction false} FlowOfLines(
    moves: seq<WalletMove>, lines: seq<Line>, wallets: seq<Wallet>, owner: Company, company: Company, c: Currency,
    direction: Direction)
    requires |moves| == |lines| && LinesSound(wallets, owner, lines)
    requires forall i :: 0 <= i < |moves| ==>
      && moves[i].wallet == lines[i].wallet && moves[i].currency == lines[i].currency
      && moves[i].amount == lines[i].amount && moves[i].direction == direction && FromEntry(moves[i].source)
    ensures Flow(moves, wallets, company, c) == if owner == company then Signed(direction, SumLines(lines, c)) else 0
  {
    if moves != [] {
      var n := |moves| - 1;
      FlowOfLines(moves[..n], lines[..n], wallets, owner, company, c, direction);
      assert LineSound(wallets, owner, lines[n]);
      assert lines == lines[..n] + [lines[n]];
      SumLinesConcat(lines[..n], [lines[n]], c);
    }
  }

  /** Movements of other documents leave the flow alone. */
  lemma FlowUnmoved(before: Till, after: Till, company: Company, c: Currency)
    requires WalletLedger(before) && SameOwners(before.wallets, after.wallets)
    requires |before.moves| <= |after.moves| && after.moves[..|before.moves|] == before.moves
    requires forall i :: |before.moves| <= i < |after.moves| ==> !FromEntry(after.moves[i].source)
    ensures Flow(after.moves, after.wallets, company, c) == Flow(before.moves, before.wallets, company, c)
  {
    var more := after.moves[|before.moves|..];
    assert after.moves == before.moves + more;
    FlowAppended(before.moves, more, after.wallets, company, c);
    FlowOutside(more, after.wallets, company, c);
    forall i | 0 <= i < |before.moves| ensures before.moves[i].wallet < |before.wallets| {
      assert Chained(before, i);
    }
    FlowSameOwners(before.moves, before.wallets, after.wallets, company, c);
  }

  /** A batch of movements made for stored lines. */
  lemma FlowMoved(
    before: Till, orders: seq<Order>, source: Source, lines: seq<Line>, owner: Company, company: Company, c: Currency,
    direction: Direction)
    requires WalletLedger(before) && MovedAll(before, orders, source).Ok? && FromEntry(source)
    requires |orders| == |lines| && LinesSound(before.wallets, owner, lines)
    requires forall i :: 0 <= i < |orders| ==>
      && orders[i].wallet == lines[i].wallet && orders[i].direction == direction
      && Round(orders[i].amount) == lines[i].amount
    ensures var after := MovedAll(before, orders, source).value;
      Flow(after.moves, after.wallets, company, c)
      == Flow(before.moves, before.wallets, company, c)
         + if owner == company then Signed(direction, SumLines(lines, c)) else 0
  {
    var after := MovedAll(before, orders, source).value;
    MovedAllEffect(before, orders, source);
    var more := after.moves[|before.moves|..];
    assert after.moves == before.moves + more;
    FlowAppended(before.moves, more, after.wallets, company, c);
    forall i | 0 <= i < |before.moves| ensures before.moves[i].wallet < |before.wallets| {
      assert Chained(before, i);
    }
    FlowSameOwners(before.moves, before.wallets, after.wallets, company, c);
    forall i | 0 <= i < |more|
      ensures more[i].wallet == lines[i].wallet && more[i].currency == lines[i].currency
        && more[i].amount == lines[i].amount && more[i].direction == direction && FromEntry(more[i].source)
    {
      assert Recorded(before, orders, source, after, i) && LineSound(before.wallets, owner, lines[i]);
    }
    forall i | 0 <= i < |lines| ensures LineSound(after.wallets, owner, lines[i]) {
      assert LineSound(before.wallets, owner, lines[i]);
    }
    FlowOfLines(more, lines, after.wallets, owner, company, c, direction);
  }

  // ---- live and reserved money -------------------------------------------------------------

  /** Only entry `e` changes value. */
  lemma LiveChanged(f: Funds, g: Funds, e: Id, company: Company, c: Currency)
    requires |f.entries| == |g.entries| && e < |f.entries|
    requires forall k :: 0 <= k < |f.entries| && k != e ==> LiveValue(g, k, company, c) == LiveValue(f, k, company, c)
    ensures Live(g, company, c) == Live(f, company, c) - LiveValue(f, e, company, c) + LiveValue(g, e, company, c)
  {
    assert LiveValues(g, company, c) == LiveValues(f, company, c)[e := LiveValue(g, e, company, c)];
    SumUpdate(LiveValues(f, company, c), e, LiveValue(g, e, company, c));
  }

  lemma LiveValuesAdded(f: Funds, entry: Entry, company: Company, c: Currency)
    requires forall i :: 0 <= i < |f.allocations| ==> f.allocations[i].entry < |f.entries|
    requires entry.mergedInto.None? && entry.status.Unallocated?
    ensures LiveValues(f.(entries := f.entries + [entry]), company, c)
         == LiveValues(f, company, c) + [if entry.company == company then SumLines(entry.lines, c) else 0]
  {
    var g := f.(entries := f.entries + [entry]);
    AllocationsOfNone(f.allocations, |f.entries|);
    forall e | 0 <= e < |f.entries| ensures LiveValue(g, e, company, c) == LiveValue(f, e, company, c) {
      assert g.entries[e] == f.entries[e];
    }
  }

  lemma LiveAdded(f: Funds, entry: Entry, company: Company, c: Currency)
    requires forall i :: 0 <= i < |f.allocations| ==> f.allocations[i].entry < |f.entries|
    requires entry.mergedInto.None? && entry.status.Unallocated?
    ensures var g := f.(entries := f.entries + [entry]);
      && Live(g, company, c) == Live(f, company, c) + (if entry.company == company then SumLines(entry.lines, c) else 0)
      && Reserve(g, company, c) == Reserve(f, company, c)
  {
    var g := f.(entries := f.entries + [entry]);
    LiveValuesAdded(f, entry, company, c);
    SumAppend(LiveValues(f, company, c), if entry.company == company then SumLines(entry.lines, c) else 0);
    hide LiveValues;
    assert ReserveValues(g, company, c) == ReserveValues(f, company, c);
  }

  /** Marking the sources of a merge takes exactly their available money out of circulation. */
  lemma {:induction false} LiveMarked(f: Funds, owner: Company, ids: seq<Id>, target: Id, company: Company, c: Currency)
    requires AllKnown(f, ids) && Distinct(ids)
    requires forall i :: 0 <= i < |ids| ==> f.entries[ids[i]].company == owner && IsLive(f.entries[ids[i]])
    ensures var g := f.(entries := MarkMerged(f.entries, ids, target));
      && Live(g, company, c)
         == Live(f, company, c) - (if owner == company then Merging.SumAvailable(f, ids, c) else 0)
      && Reserve(g, company, c) == Reserve(f, company, c)
    decreases |ids|
  {
    if ids != [] {
      var e := ids[0];
      var g := f.(entries := f.entries[e := f.entries[e].(mergedInto := Some(target))]);
      forall k | 0 <= k < |f.entries| && k != e ensures LiveValue(g, k, company, c) == LiveValue(f, k, company, c) {
        assert g.entries[k] == f.entries[k];
      }
      LiveChanged(f, g, e, company, c);
      assert ReserveValues(g, company, c) == ReserveValues(f, company, c);
      forall i | 0 <= i < |ids[1..]| ensures ids[1..][i] == ids[i + 1] != e {}
      LiveMarked(g, owner, ids[1..], target, company, c);
      SumAvailableSame(f, g, ids[1..], c);
    }
  }

  lemma {:induction false} SumAvailableSame(f: Funds, g: Funds, ids: seq<Id>, c: Currency)
    requires AllKnown(f, ids) && AllKnown(g, ids) && g.allocations == f.allocations
    requires forall i :: 0 <= i < |ids| ==> g.entries[ids[i]].lines == f.entries[ids[i]].lines
    ensures Merging.SumAvailable(f, ids, c) == Merging.SumAvailable(g, ids, c)
  {
    if ids != [] {
      assert g.entries[ids[0]].lines == f.entries[ids[0]].lines;
      forall i | 0 <= i < |ids[1..]| ensures ids[1..][i] == ids[i + 1] {}
      SumAvailableSame(f, g, ids[1..], c);
    }
  }

  lemma ReservedLive(f: Funds, a: Allocation, company: Company, c: Currency)
    requires a.entry < |f.entries| && IsLive(f.entries[a.entry])
    ensures Live(Reserved(f, a), company, c) == Live(f, company, c) - ReserveValue(f, a, company, c)
  {
    var g, e := Reserved(f, a), a.entry;
    forall k | 0 <= k < |f.entries| && k != e ensures LiveValue(g, k, company, c) == LiveValue(f, k, company, c) {
      RowAdded(f.allocations, a, k, c);
    }
    assert LiveValue(g, e, company, c) == LiveValue(f, e, company, c) - ReserveValue(f, a, company, c) by {
      RowAdded(f.allocations, a, e, c);
    }
    LiveChanged(f, g, e, company, c);
  }

  lemma ReservedReserve(f: Funds, a: Allocation, company: Company, c: Currency)
    requires a.entry < |f.entries|
    ensures Reserve(Reserved(f, a), company, c) == Reserve(f, company, c) + ReserveValue(f, a, company, c)
  {
    var g := Reserved(f, a);
    assert ReserveValues(g, company, c) == ReserveValues(f, company, c) + [ReserveValue(f, a, company, c)];
    SumAppend(ReserveValues(f, company, c), ReserveValue(f, a, company, c));
  }

  lemma {:induction false} SumRemoved(s: seq<int>, i: nat)
    requires i < |s|
    ensures Sum(RemoveAt(s, i)) == Sum(s) - s[i]
  {
    var n := |s| - 1;
    if i == n {
      assert RemoveAt(s, i) == s[..n];
    } else {
      assert RemoveAt(s, i)[..n - 1] == RemoveAt(s[..n], i);
      SumRemoved(s[..n], i);
    }
  }

  lemma ReleasedReserve(f: Funds, e: Id, target: Id, company: Company, c: Currency)
    requires e < |f.entries|
    ensures Reserve(Released(f, e, target), company, c) == Reserve(f, company, c) - Freed(f, target, company, c)
  {
    var g, found := Released(f, e, target), FindTarget(f.allocations, target);
    if found.Some? {
      assert ReserveValues(g, company, c) == RemoveAt(ReserveValues(f, company, c), found.value);
      SumRemoved(ReserveValues(f, company, c), found.value);
    } else {
      assert ReserveValues(g, company, c) == ReserveValues(f, company, c);
    }
  }

  lemma ReleasedAvailable(f: Funds, e: Id, target: Id, k: Id, c: Currency)
    requires e < |f.entries| && k < |f.entries|
    requires forall i :: 0 <= i < |f.allocations| && f.allocations[i].target == target ==> f.allocations[i].entry == e
    ensures Available(Released(f, e, target), k, c)
         == Available(f, k, c) + if k == e then Freed(f, target, f.entries[e].company, c) else 0
  {
    var found := FindTarget(f.allocations, target);
    if found.Some? {
      RowRemoved(f.allocations, found.value, k, c);
    }
  }

  /** The released money can be spent again unless the entry was merged away; and the release brings
      a cancelled entry back. */
  lemma ReleasedLive(f: Funds, e: Id, target: Id, company: Company, c: Currency)
    requires e < |f.entries| && StatusSound(f, e)
    requires forall i :: 0 <= i < |f.allocations| && f.allocations[i].target == target ==> f.allocations[i].entry == e
    ensures Live(Released(f, e, target), company, c)
         == Live(f, company, c)
            + (if f.entries[e].mergedInto.Some? then 0 else Freed(f, target, company, c))
            + (if f.entries[e].status.EntryCancelled? && f.entries[e].company == company
               then SumLines(f.entries[e].lines, c) else 0)
  {
    var g, found := Released(f, e, target), FindTarget(f.allocations, target);
    forall k | 0 <= k < |f.entries| && k != e ensures LiveValue(g, k, company, c) == LiveValue(f, k, company, c) {
      ReleasedAvailable(f, e, target, k, c);
    }
    LiveChanged(f, g, e, company, c);
    ReleasedAvailable(f, e, target, e, c);
    if found.Some? {
      RowPresent(f.allocations, found.value);
    }
  }

  lemma {:induction false} RowPresent(allocations: seq<Allocation>, i: nat)
    requires i < |allocations|
    ensures AllocationsOf(allocations, allocations[i].entry) != []
  {
    if i > 0 {
      RowPresent(allocations[1..], i - 1);
    }
  }

  // ---- every event -------------------------------------------------------------------------

  lemma CreateEntryBalances(
    l: Ledger, owner: Company, name: Option<string>, phone: Option<string>, lines: seq<LineRequest>,
    company: Company, c: Currency)
    requires Sound(l) && EntryCreated(l, owner, name, phone, lines).Ok?
    ensures Excess(EntryCreated(l, owner, name, phone, lines).value, company, c) == Excess(l, company, c)
  {
    var rows := StoredLines(lines);
    ReceivedLinesSound(l.till, l.till, owner, lines);
    FlowMoved(l.till, ReceiptOrders(lines), EntryReceipt(|l.funds.entries|), rows, owner, company, c, In);
    AllocationsBounded(l);
    LiveAdded(l.funds, Entry(owner, name, phone, Unallocated, None, rows), company, c);
  }

  lemma AllocationsBounded(l: Ledger)
    requires Sound(l)
    ensures forall i :: 0 <= i < |l.funds.allocations| ==> l.funds.allocations[i].entry < |l.funds.entries|
    ensures forall i :: 0 <= i < |l.funds.allocations| ==>
      var a := l.funds.allocations[i]; a.target < |l.desk.ops| && l.desk.ops[a.target].entry == Some(a.entry)
  {
    forall i | 0 <= i < |l.funds.allocations|
      ensures var a := l.funds.allocations[i];
        a.entry < |l.funds.entries| && a.target < |l.desk.ops| && l.desk.ops[a.target].entry == Some(a.entry)
    {
      assert AllocationSound(l.funds, l.desk.ops, l.funds.allocations[i]);
    }
  }

  lemma CancelledLive(f: Funds, e: Id, company: Company, c: Currency)
    requires e < |f.entries| && IsLive(f.entries[e]) && AllocationsOf(f.allocations, e) == []
    ensures var g := f.(entries := f.entries[e := f.entries[e].(status := EntryCancelled)]);
      && Live(g, company, c)
         == Live(f, company, c) - (if f.entries[e].company == company then SumLines(f.entries[e].lines, c) else 0)
      && Reserve(g, company, c) == Reserve(f, company, c)
  {
    var g := f.(entries := f.entries[e := f.entries[e].(status := EntryCancelled)]);
    forall k | 0 <= k < |f.entries| && k != e ensures LiveValue(g, k, company, c) == LiveValue(f, k, company, c) {
      assert g.entries[k] == f.entries[k];
    }
    LiveChanged(f, g, e, company, c);
    assert ReserveValues(g, company, c) == ReserveValues(f, company, c);
  }

  lemma PaidBackFlow(l: Ledger, e: Id, company: Company, c: Currency)
    requires Sound(l) && e < |l.funds.entries|
    requires MovedAll(l.till, PayBackOrders(l.funds.entries[e].lines), EntryCancellation(e)).Ok?
    ensures var t := MovedAll(l.till, PayBackOrders(l.funds.entries[e].lines), EntryCancellation(e)).value;
      Flow(t.moves, t.wallets, company, c)
      == Flow(l.till.moves, l.till.wallets, company, c)
         - (if l.funds.entries[e].company == company then SumLines(l.funds.entries[e].lines, c) else 0)
  {
    var lines := l.funds.entries[e].lines;
    var orders := PayBackOrders(lines);
    assert EntrySound(l.till.wallets, l.funds, e);
    forall i | 0 <= i < |orders| ensures Round(orders[i].amount) == lines[i].amount {
      RoundWholeCents(lines[i].amount);
    }
    FlowMoved(l.till, orders, EntryCancellation(e), lines, l.funds.entries[e].company, company, c, Out);
  }

  lemma CancelEntryBalances(l: Ledger, owner: Company, e: Id, company: Company, c: Currency)
    requires Sound(l) && EntryCancelledBy(l, owner, e).Ok?
    ensures Excess(EntryCancelledBy(l, owner, e).value, company, c) == Excess(l, company, c)
  {
    PaidBackFlow(l, e, company, c);
    CancelledLive(l.funds, e, company, c);
  }

  /** What a merge that goes through has checked and written. */
  lemma MergeShape(l: Ledger, owner: Company, ids: seq<Id>)
    requires EntriesMerged(l, owner, ids).Ok?
    ensures AllKnown(l.funds, ids) && Distinct(ids)
    ensures forall i :: 0 <= i < |ids| ==>
      l.funds.entries[ids[i]].company == owner && IsLive(l.funds.entries[ids[i]])
    ensures var m, n := EntriesMerged(l, owner, ids).value, |l.funds.entries|;
      && |m.funds.entries| == n + 1
      && var merged := m.funds.entries[n];
         && merged.mergedInto.None? && merged.status.Unallocated? && merged.company == owner
         && m == l.(funds := l.funds.(entries := MarkMerged(l.funds.entries, ids, n) + [merged]))
  {
  }

  lemma MergeBalances(l: Ledger, owner: Company, ids: seq<Id>, company: Company, c: Currency)
    requires Sound(l) && EntriesMerged(l, owner, ids).Ok?
    ensures Excess(EntriesMerged(l, owner, ids).value, company, c) == Excess(l, company, c)
  {
    MergeShape(l, owner, ids);
    AllocationsBounded(l);
    Merging.MergePreservesSpendable(l, owner, ids);
    hide Sound, EntriesMerged, MarkMerged, AggregatedAll, CarriedAll, SumFrom, DistinctKeys, Live, Reserve;
    var m, n := EntriesMerged(l, owner, ids).value, |l.funds.entries|;
    var marked := l.funds.(entries := MarkMerged(l.funds.entries, ids, n));
    LiveMarked(l.funds, owner, ids, n, company, c);
    AllocationsOfNone(l.funds.allocations, n);
    assert Available(m.funds, n, c) == SumLines(m.funds.entries[n].lines, c);
    LiveAdded(marked, m.funds.entries[n], company, c);
  }

  lemma OpeningBalances(
    l: Ledger, draft: Op, name: Option<string>, phone: Option<string>, company: Company, c: Currency)
    requires Sound(l)
    requires draft.entry.Some? ==>
      draft.entry.value < |l.funds.entries| && IsLive(l.funds.entries[draft.entry.value])
    ensures Excess(O.Opened(l, draft, name, phone), company, c) == Excess(l, company, c)
  {
    if draft.entry.Some? && draft.split.allocation > 0 {
      var a := Allocation(draft.entry.value, |l.desk.ops|, draft.currency, draft.split.allocation);
      ReservedLive(l.funds, a, company, c);
      ReservedReserve(l.funds, a, company, c);
    }
  }

  lemma ClosingBalances(l: Ledger, ev: Event, company: Company, c: Currency)
    requires Sound(l) && ev.CloseOperation? && Applied(l, ev).Ok?
    ensures Excess(Step(l, ev), company, c)
         == Excess(l, company, c) + PhantomBy(l, ev, company, c) - StrandedBy(l, ev, company, c)
  {
    var op := l.desk.ops[ev.op];
    if op.entry.Some? {
      var e := op.entry.value;
      assert EntrySound(l.till.wallets, l.funds, e);
      AllocationsBounded(l);
      ReleasedReserve(l.funds, e, ev.op, company, c);
      ReleasedLive(l.funds, e, ev.op, company, c);
    }
  }

  lemma FlowUnmovedBy(before: Till, orders: seq<Order>, source: Source, company: Company, c: Currency)
    requires WalletLedger(before) && MovedAll(before, orders, source).Ok? && !FromEntry(source)
    ensures var after := MovedAll(before, orders, source).value;
      Flow(after.moves, after.wallets, company, c) == Flow(before.moves, before.wallets, company, c)
  {
    var after := MovedAll(before, orders, source).value;
    MovedAllEffect(before, orders, source);
    forall i | |before.moves| <= i < |after.moves| ensures !FromEntry(after.moves[i].source) {
      assert Recorded(before, orders, source, after, i - |before.moves|);
    }
    FlowUnmoved(before, after, company, c);
  }

  lemma NationalBalances(l: Ledger, ev: Event, company: Company, c: Currency)
    ensures Sound(l) && Applied(l, ev).Ok? && (ev.CreateNational? || ev.CancelNational?) ==>
      Excess(Step(l, ev), company, c) == Excess(l, company, c)
  {
    if Sound(l) && Applied(l, ev).Ok? && (ev.CreateNational? || ev.CancelNational?) {
      var orders := if ev.CreateNational? then N.OrdersOf(ev.national.lines)
                    else N.OrdersOf(N.MirroredAll(l.nationals[ev.n].lines));
      FlowUnmovedBy(l.till, orders, NationalOperation(|l.nationals|), company, c);
    }
  }

  lemma WalletCallBalances(l: Ledger, ev: Event, company: Company, c: Currency)
    ensures WalletLedger(l.till) && Applied(l, ev).Ok? && (ev.CreateWallet? || ev.SetWalletStatus?) ==>
      Excess(Step(l, ev), company, c) == Excess(l, company, c)
  {
    hide WalletLedger, Flow;
    if WalletLedger(l.till) && Applied(l, ev).Ok? && (ev.CreateWallet? || ev.SetWalletStatus?) {
      FlowUnmoved(l.till, Step(l, ev).till, company, c);
    }
  }

  lemma ApprovalBalances(l: Ledger, ev: Event, company: Company, c: Currency)
    ensures WalletLedger(l.till) && Applied(l, ev).Ok? && (ev.ApproveTransfer? || ev.ApprovePayment?) ==>
      Excess(Step(l, ev), company, c) == Excess(l, company, c)
  {
    hide WalletLedger, Flow;
    if WalletLedger(l.till) && Applied(l, ev).Ok? && (ev.ApproveTransfer? || ev.ApprovePayment?) {
      FlowUnmoved(l.till, Step(l, ev).till, company, c);
    }
  }

  predicate OnlyTouchesTill(ev: Event) {
    ev.CreateWallet? || ev.SetWalletStatus? || ev.ApproveTransfer? || ev.ApprovePayment?
  }

  /** Wallet administration and approvals move no entry money. */
  lemma TillBalances(l: Ledger, ev: Event, company: Company, c: Currency)
    ensures Sound(l) && Applied(l, ev).Ok? && OnlyTouchesTill(ev) ==>
      Excess(Step(l, ev), company, c) == Excess(l, company, c)
  {
    hide Step, Applied, Excess;
    if Sound(l) && Applied(l, ev).Ok? && OnlyTouchesTill(ev) {
      if ev.CreateWallet? || ev.SetWalletStatus? {
        WalletCallBalances(l, ev, company, c);
      } else {
        ApprovalBalances(l, ev, company, c);
      }
    }
  }

  /** Everything else touches neither entries nor wallets. */
  lemma QuietBalances(l: Ledger, ev: Event, company: Company, c: Currency)
    ensures !TouchesTill(ev) && !TouchesFunds(ev) ==> Excess(Step(l, ev), company, c) == Excess(l, company, c)
  {
    hide Step;
    TillUntouched(l, ev);
    FundsUntouched(l, ev);
  }

  lemma EntryCallBalances(l: Ledger, ev: Event, company: Company, c: Currency)
    ensures Sound(l) && Applied(l, ev).Ok? && (ev.CreateEntry? || ev.MergeEntries? || ev.CancelEntry?) ==>
      Excess(Step(l, ev), company, c) == Excess(l, company, c)
  {
    hide Sound, Excess;
    if Sound(l) && Applied(l, ev).Ok? && (ev.CreateEntry? || ev.MergeEntries? || ev.CancelEntry?) {
      match ev
      case CreateEntry(owner, name, phone, lines) => CreateEntryBalances(l, owner, name, phone, lines, company, c);
      case MergeEntries(owner, ids) => MergeBalances(l, owner, ids, company, c);
      case CancelEntry(owner, e) => CancelEntryBalances(l, owner, e, company, c);
    }
  }

  lemma OpeningCallBalances(l: Ledger, ev: Event, company: Company, c: Currency)
    ensures Sound(l) && Applied(l, ev).Ok? && (ev.CreateTransfer? || ev.CreatePayment?) ==>
      Excess(Step(l, ev), company, c) == Excess(l, company, c)
  {
    hide Sound, Excess;
    if Sound(l) && Applied(l, ev).Ok? && (ev.CreateTransfer? || ev.CreatePayment?) {
      match ev
      case CreateTransfer(owner, q) => TransferBalances(l, owner, q, company, c);
      case CreatePayment(owner, q) => PaymentBalances(l, owner, q, company, c);
    }
  }

  /** One service call changes the excess only by what it strands and what it conjures up. */
  lemma StepBalances(l: Ledger, ev: Event, company: Company, c: Currency)
    requires Sound(l)
    ensures Excess(Step(l, ev), company, c)
         == Excess(l, company, c) + PhantomBy(l, ev, company, c) - StrandedBy(l, ev, company, c)
  {
    hide Sound, Excess, Step, Applied;
    if Applied(l, ev).Err? {
      FailureChangesNothing(l, ev);
    } else if ev.CloseOperation? {
      ClosingBalances(l, ev, company, c);
    } else if ev.CreateEntry? || ev.MergeEntries? || ev.CancelEntry? {
      EntryCallBalances(l, ev, company, c);
    } else if ev.CreateTransfer? || ev.CreatePayment? {
      OpeningCallBalances(l, ev, company, c);
    } else if ev.CreateNational? || ev.CancelNational? {
      NationalBalances(l, ev, company, c);
    } else if OnlyTouchesTill(ev) {
      TillBalances(l, ev, company, c);
    } else {
      QuietBalances(l, ev, company, c);
    }
  }

  lemma TransferBalances(l: Ledger, owner: Company, q: O.TransferRequest, company: Company, c: Currency)
    requires Sound(l) && O.TransferOpened(l, owner, q).Ok?
    ensures Excess(O.TransferOpened(l, owner, q).value, company, c) == Excess(l, company, c)
  {
    var m := O.TransferOpened(l, owner, q).value;
    var draft := m.desk.ops[|l.desk.ops|];
    var view := O.DrawnEntry(l.funds, owner, q.entry, q.currency).value;
    OpeningBalances(l, draft, O.OrElse(q.name, O.EntryName(view)), O.OrElse(q.phone, O.EntryPhone(view)), company, c);
  }

  lemma PaymentBalances(l: Ledger, owner: Company, q: O.PaymentRequest, company: Company, c: Currency)
    requires Sound(l) && O.PaymentOpened(l, owner, q).Ok?
    ensures Excess(O.PaymentOpened(l, owner, q).value, company, c) == Excess(l, company, c)
  {
    var m := O.PaymentOpened(l, owner, q).value;
    var draft := m.desk.ops[|l.desk.ops|];
    var view := O.DrawnEntry(l.funds, owner, q.entry, q.currency).value;
    OpeningBalances(l, draft, O.OrElse(q.name, O.EntryName(view)), O.OrElse(q.phone, O.EntryPhone(view)), company, c);
  }

  // ---- every run ---------------------------------------------------------------------------

  /** Conservation, for every run of service calls, company and currency: what was received through
      entries and not paid back, together with the money conjured up by revived entries, is exactly
      what live entries have available, what allocations hold, and what was stranded on entries
      merged away. */
  lemma {:induction false} EntryFundsConserved(events: seq<Event>, company: Company, c: Currency)
    ensures var l := Exec(events);
      Flow(l.till.moves, l.till.wallets, company, c) + Phantom(events, company, c)
      == Live(l.funds, company, c) + Reserve(l.funds, company, c) + Stranded(events, company, c)
  {
    if events != [] {
      var before := events[..|events| - 1];
      hide Sound, Step;
      EntryFundsConserved(before, company, c);
      ReachableIsSound(before);
      StepBalances(Exec(before), events[|events| - 1], company, c);
    }
  }

  lemma BucketsNonNegative(l: Ledger, ev: Event, company: Company, c: Currency)
    requires Sound(l)
    ensures PhantomBy(l, ev, company, c) >= 0 && StrandedBy(l, ev, company, c) >= 0
  {
    if Closes(l, ev) {
      var e := l.desk.ops[ev.op].entry.value;
      assert EntrySound(l.till.wallets, l.funds, e);
      forall i | 0 <= i < |l.funds.entries[e].lines| ensures l.funds.entries[e].lines[i].amount >= 0 {
        assert LineSound(l.till.wallets, l.funds.entries[e].company, l.funds.entries[e].lines[i]);
      }
      SumLinesNonNegative(l.funds.entries[e].lines, c);
      var found := FindTarget(l.funds.allocations, ev.op);
      assert found.Some? ==> AllocationSound(l.funds, l.desk.ops, l.funds.allocations[found.value]);
    }
  }

  /** The call closes an operation whose entry stands CANCELLED, belongs to the company and has a
      line of at least one cent in the currency. */
  predicate Conjures(l: Ledger, ev: Event, company: Company, c: Currency) {
    && Revives(l, ev)
    && var entry := l.funds.entries[l.desk.ops[ev.op].entry.value];
       && entry.company == company
       && exists i :: 0 <= i < |entry.lines| && entry.lines[i].currency == c && entry.lines[i].amount > 0
  }

  lemma {:induction false} SumLinesPositive(lines: seq<Line>, c: Currency)
    requires forall i :: 0 <= i < |lines| ==> lines[i].amount >= 0
    ensures SumLines(lines, c) > 0 <==> exists i :: 0 <= i < |lines| && lines[i].currency == c && lines[i].amount > 0
  {
    if lines != [] {
      SumLinesNonNegative(lines[1..], c);
      SumLinesPositive(lines[1..], c);
      assert forall i :: 0 <= i < |lines| - 1 ==> lines[1..][i] == lines[i + 1];
      if SumLines(lines[1..], c) > 0 {
        var i :| 0 <= i < |lines[1..]| && lines[1..][i].currency == c && lines[1..][i].amount > 0;
        assert lines[i + 1].currency == c && lines[i + 1].amount > 0;
      } else if exists i :: 0 <= i < |lines| && lines[i].currency == c && lines[i].amount > 0 {
        var i :| 0 <= i < |lines| && lines[i].currency == c && lines[i].amount > 0;
        assert i > 0 ==> lines[1..][i - 1].amount > 0;
      }
    }
  }

  lemma PhantomIffConjured(l: Ledger, ev: Event, company: Company, c: Currency)
    requires Sound(l)
    ensures PhantomBy(l, ev, company, c) == 0 <==> !Conjures(l, ev, company, c)
  {
    if Revives(l, ev) {
      var e := l.desk.ops[ev.op].entry.value;
      assert EntrySound(l.till.wallets, l.funds, e);
      var lines := l.funds.entries[e].lines;
      forall i | 0 <= i < |lines| ensures lines[i].amount >= 0 {
        assert LineSound(l.till.wallets, l.funds.entries[e].company, lines[i]);
      }
      SumLinesPositive(lines, c);
      SumLinesNonNegative(lines, c);
    }
  }

  /** The k-th call of the run conjures up nothing. */
  predicate Honest(events: seq<Event>, k: nat, company: Company, c: Currency)
    requires k < |events|
  {
    !Conjures(Exec(events[..k]), events[k], company, c)
  }

  /** The last call of a run adds to the phantom bucket exactly if it is not honest. */
  lemma PhantomGrows(events: seq<Event>, company: Company, c: Currency)
    requires events != []
    ensures var n := |events| - 1;
      && Phantom(events, company, c) >= Phantom(events[..n], company, c)
      && (Phantom(events, company, c) == Phantom(events[..n], company, c) <==> Honest(events, n, company, c))
  {
    hide Sound, Step, Exec, Conjures, PhantomBy;
    var n := |events| - 1;
    ReachableIsSound(events[..n]);
    BucketsNonNegative(Exec(events[..n]), events[n], company, c);
    PhantomIffConjured(Exec(events[..n]), events[n], company, c);
  }

  lemma {:induction false} PhantomIsSum(events: seq<Event>, company: Company, c: Currency)
    ensures Phantom(events, company, c) >= 0
    ensures Phantom(events, company, c) == 0 <==> forall k :: 0 <= k < |events| ==> Honest(events, k, company, c)
  {
    hide Sound, Step, Exec, Conjures, PhantomBy;
    if events != [] {
      var n := |events| - 1;
      PhantomIsSum(events[..n], company, c);
      PhantomGrows(events, company, c);
      forall k | 0 <= k < n ensures Honest(events[..n], k, company, c) <==> Honest(events, k, company, c) {
        assert events[..n][..k] == events[..k];
      }
    }
  }

  /** The books balance without the phantom bucket exactly when no call ever closed an operation
      whose entry stood CANCELLED with money of that company and currency on it. */
  lemma BooksBalanceIff(events: seq<Event>, company: Company, c: Currency)
    ensures var l := Exec(events);
      Flow(l.till.moves, l.till.wallets, company, c)
        == Live(l.funds, company, c) + Reserve(l.funds, company, c) + Stranded(events, company, c)
      <==> forall k :: 0 <= k < |events| ==> Honest(events, k, company, c)
  {
    EntryFundsConserved(events, company, c);
    PhantomIsSum(events, company, c);
  }

  // ---- when no entry is ever revived -------------------------------------------------------

  /** An operation that reserved something keeps its entry from being cancelled. */
  lemma ReservationPreventsRevival(l: Ledger, ev: Event)
    requires Sound(l) && Closes(l, ev) && l.desk.ops[ev.op].split.allocation > 0
    ensures !Revives(l, ev)
  {
    var e := l.desk.ops[ev.op].entry.value;
    assert DrawSound(l.funds, l.desk.ops, ev.op) && EntrySound(l.till.wallets, l.funds, e);
    var found := FindTarget(l.funds.allocations, ev.op);
    assert AllocationSound(l.funds, l.desk.ops, l.funds.allocations[found.value]);
    RowPresent(l.funds.allocations, found.value);
  }

  predicate AllFunded(ops: seq<Op>) {
    forall o :: 0 <= o < |ops| && ops[o].entry.Some? ==> ops[o].split.allocation > 0
  }

  /** The books balance whenever every entry-backed operation recorded a positive allocation. */
  lemma FundedOperationsBalance(events: seq<Event>, company: Company, c: Currency)
    requires AllFunded(Exec(events).desk.ops)
    ensures var l := Exec(events);
      Flow(l.till.moves, l.till.wallets, company, c)
        == Live(l.funds, company, c) + Reserve(l.funds, company, c) + Stranded(events, company, c)
  {
    forall k | 0 <= k < |events| ensures Honest(events, k, company, c) {
      var l, ev := Exec(events[..k]), events[k];
      if Closes(l, ev) {
        ReachableIsSound(events[..k]);
        OperationsPersist(events, k);
        ReservationPreventsRevival(l, ev);
      }
    }
    BooksBalanceIff(events, company, c);
  }

  /** Entry `e` stands CANCELLED. */
  predicate StandsCancelled(f: Funds, e: Id) {
    e < |f.entries| && f.entries[e].status.EntryCancelled?
  }

  lemma DrawingSkipsCancelled(l: Ledger, ev: Event, e: Id)
    ensures StandsCancelled(l.funds, e) && (ev.CreateTransfer? || ev.CreatePayment?) ==>
      StandsCancelled(Step(l, ev).funds, e)
  {
  }

  lemma EntryCallsKeepCancelled(l: Ledger, ev: Event, e: Id)
    ensures StandsCancelled(l.funds, e) && (ev.CreateEntry? || ev.CancelEntry? || ev.MergeEntries?) ==>
      StandsCancelled(Step(l, ev).funds, e)
  {
    if StandsCancelled(l.funds, e) && (ev.CreateEntry? || ev.CancelEntry? || ev.MergeEntries?) {
      if Applied(l, ev).Ok? && ev.MergeEntries? {
        Merging.MarkedEntries(l.funds.entries, ev.ids, |l.funds.entries|);
      }
    }
  }

  /** A closure touches the status of the entry its operation refers to, and of no other; on a
      CANCELLED entry there is no allocation left for it to free. */
  lemma ClosureOfCancelled(l: Ledger, ev: Event, e: Id)
    requires Sound(l) && StandsCancelled(l.funds, e) && ev.CloseOperation? && Applied(l, ev).Ok?
    ensures e < |Step(l, ev).funds.entries|
    ensures l.desk.ops[ev.op].entry != Some(e) ==> StandsCancelled(Step(l, ev).funds, e)
    ensures l.desk.ops[ev.op].entry == Some(e) ==>
      && FindTarget(l.funds.allocations, ev.op).None? && l.desk.ops[ev.op].split.allocation <= 0
      && !StandsCancelled(Step(l, ev).funds, e)
  {
    if l.desk.ops[ev.op].entry == Some(e) {
      if l.desk.ops[ev.op].split.allocation > 0 {
        ReservationPreventsRevival(l, ev);
      }
      var found := FindTarget(l.funds.allocations, ev.op);
      assert found.Some? ==> AllocationSound(l.funds, l.desk.ops, l.funds.allocations[found.value]);
    }
  }

  /** An entry leaves CANCELLED exactly when an operation that refers to it is rejected or cancelled,
      and such an operation reserved nothing on it. */
  lemma OnlyUnfundedClosureRevives(l: Ledger, ev: Event, e: Id)
    requires Sound(l) && StandsCancelled(l.funds, e)
    ensures e < |Step(l, ev).funds.entries|
    ensures !StandsCancelled(Step(l, ev).funds, e) <==>
      ev.CloseOperation? && Applied(l, ev).Ok? && l.desk.ops[ev.op].entry == Some(e)
    ensures !StandsCancelled(Step(l, ev).funds, e) ==>
      FindTarget(l.funds.allocations, ev.op).None? && l.desk.ops[ev.op].split.allocation <= 0
  {
    hide Sound, Step, Applied;
    if ev.CloseOperation? {
      if Applied(l, ev).Ok? {
        ClosureOfCancelled(l, ev, e);
      } else {
        FailureChangesNothing(l, ev);
      }
    } else if ev.CreateTransfer? || ev.CreatePayment? {
      DrawingSkipsCancelled(l, ev, e);
    } else if ev.CreateEntry? || ev.CancelEntry? || ev.MergeEntries? {
      EntryCallsKeepCancelled(l, ev, e);
    } else {
      FundsUntouched(l, ev);
    }
  }
}
