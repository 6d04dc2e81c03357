/** Entries: money received into wallets, its allocation and its merging
    (app/services/entry_service.py). */
module Entries {
  import opened Money
  import opened Tables
  import opened Wallets
  import LockOrder

  // ---- availability ------------------------------------------------------------------------

  function SumLines(lines: seq<Line>, c: Currency): int {
    if lines == [] then 0
    else (if lines[0].currency == c then lines[0].amount else 0) + SumLines(lines[1..], c)
  }

  function SumAllocated(allocations: seq<Allocation>, c: Currency): int {
    if allocations == [] then 0
    else (if allocations[0].currency == c then allocations[0].amount else 0) + SumAllocated(allocations[1..], c)
  }

  function CurrenciesOf(lines: seq<Line>, allocations: seq<Allocation>): set<Currency> {
    (set line | line in lines :: line.currency) + (set a | a in allocations :: a.currency)
  }

  /** What `available_by_currency` returns: one key per currency that occurs. */
  function Totals(lines: seq<Line>, allocations: seq<Allocation>): map<Currency, int> {
    map c | c in CurrenciesOf(lines, allocations) :: SumLines(lines, c) - SumAllocated(allocations, c)
  }

  function Get(totals: map<Currency, int>, c: Currency): int {
    if c in totals then totals[c] else 0
  }

  method AvailableByCurrency(lines: seq<Line>, allocations: seq<Allocation>) returns (totals: map<Currency, int>)
    ensures totals == Totals(lines, allocations)
  {
    hide Totals;
    totals := map[];
    for i := 0 to |lines|
      invariant totals.Keys == CurrenciesOf(lines[..i], [])
      invariant forall c :: Get(totals, c) + SumLines(lines[i..], c) == SumLines(lines, c)
    {
      assert lines[..i + 1] == lines[..i] + [lines[i]];
      totals := totals[lines[i].currency := Get(totals, lines[i].currency) + lines[i].amount];
    }
    assert lines[..|lines|] == lines;
    for i := 0 to |allocations|
      invariant totals.Keys == CurrenciesOf(lines, allocations[..i])
      invariant forall c ::
        Get(totals, c) - SumAllocated(allocations[i..], c) == SumLines(lines, c) - SumAllocated(allocations, c)
    {
      assert allocations[..i + 1] == allocations[..i] + [allocations[i]];
      totals := totals[allocations[i].currency := Get(totals, allocations[i].currency) - allocations[i].amount];
    }
    assert allocations[..|allocations|] == allocations;
    TotalsAre(lines, allocations, totals);
  }

  lemma TotalsAre(lines: seq<Line>, allocations: seq<Allocation>, totals: map<Currency, int>)
    requires totals.Keys == CurrenciesOf(lines, allocations)
    requires forall c :: Get(totals, c) == SumLines(lines, c) - SumAllocated(allocations, c)
    ensures totals == Totals(lines, allocations)
  {
    assert forall c | c in totals :: totals[c] == Get(totals, c) == Totals(lines, allocations)[c];
  }

  function RecomputeStatus(lines: seq<Line>, allocations: seq<Allocation>): EntryStatus {
    if allocations == [] then Unallocated
    else
      var remaining := Totals(lines, allocations);
      if forall c | c in remaining :: remaining[c] <= 0 then Consumed else PartiallyAllocated
  }

  predicate Mergeable(s: EntryStatus) {
    s.Unallocated? || s.PartiallyAllocated?
  }

  /** `entry_repository.get_allocations`: rows of one entry, oldest first. */
  function AllocationsOf(allocations: seq<Allocation>, e: Id): seq<Allocation> {
    if allocations == [] then []
    else
      var rest := AllocationsOf(allocations[1..], e);
      if allocations[0].entry == e then [allocations[0]] + rest else rest
  }

  function Available(f: Funds, e: Id, c: Currency): int
    requires e < |f.entries|
  {
    SumLines(f.entries[e].lines, c) - SumAllocated(AllocationsOf(f.allocations, e), c)
  }

  /** `entry_repository.get_allocation_by_target`. */
  function FindTarget(allocations: seq<Allocation>, target: Id): (r: Option<nat>)
    ensures r.Some? ==> r.value < |allocations| && allocations[r.value].target == target
    ensures r.None? ==> forall i :: 0 <= i < |allocations| ==> allocations[i].target != target
  {
    if allocations == [] then None
    else if allocations[0].target == target then Some(0)
    else
      match FindTarget(allocations[1..], target)
      case None =>
        assert forall i :: 0 < i < |allocations| ==> allocations[i] == allocations[1..][i - 1];
        None
      case Some(i) => Some(i + 1)
  }

  function Owned(f: Funds, company: Company, e: Id): bool {
    e < |f.entries| && f.entries[e].company == company
  }

  // ---- create_entry ------------------------------------------------------------------------

  datatype LineRequest = LineRequest(wallet: Id, amount: real, currency: Currency)

  function ReceiptOrders(lines: seq<LineRequest>): seq<Order> {
    seq(|lines|, i requires 0 <= i < |lines| => Order(lines[i].wallet, In, lines[i].amount))
  }

  function StoredLines(lines: seq<LineRequest>): seq<Line> {
    seq(|lines|, i requires 0 <= i < |lines| => Line(lines[i].wallet, lines[i].currency, Round(lines[i].amount)))
  }

  function WalletIds(lines: seq<LineRequest>): seq<Id> {
    seq(|lines|, i requires 0 <= i < |lines| => lines[i].wallet)
  }

  predicate OwnWallet(t: Till, company: Company, w: Id) {
    w < |t.wallets| && t.wallets[w].company == company
  }

  predicate MismatchedLine(t: Till, line: LineRequest) {
    line.wallet < |t.wallets| && line.currency != t.wallets[line.wallet].currency
  }

  function Refusal(t: Till, company: Company, lines: seq<LineRequest>): Option<Error> {
    if exists w | w in WalletIds(lines) :: !OwnWallet(t, company, w) then Some(NotFound)
    else if exists i :: 0 <= i < |lines| && MismatchedLine(t, lines[i]) then Some(Unbalanced)
    else None
  }

  lemma RefusedIff(t: Till, company: Company, lines: seq<LineRequest>)
    ensures Refusal(t, company, lines).None? <==>
      forall i :: 0 <= i < |lines| ==> OwnWallet(t, company, lines[i].wallet) && !MismatchedLine(t, lines[i])
  {
    forall i | 0 <= i < |lines| ensures lines[i].wallet in WalletIds(lines) {
      assert WalletIds(lines)[i] == lines[i].wallet;
    }
    forall w | w in WalletIds(lines) ensures exists i :: 0 <= i < |lines| && lines[i].wallet == w {
      var i :| 0 <= i < |lines| && WalletIds(lines)[i] == w;
      assert lines[i].wallet == w;
    }
  }

  function EntryCreated(
    l: Ledger, company: Company, name: Option<string>, phone: Option<string>, lines: seq<LineRequest>): Result<Ledger>
  {
    if lines == [] || exists i :: 0 <= i < |lines| && lines[i].amount <= 0.0 then Err(Invalid)
    else
      match Refusal(l.till, company, lines)
      case Some(error) => Err(error)
      case None =>
        var till :- MovedAll(l.till, ReceiptOrders(lines), EntryReceipt(|l.funds.entries|));
        var entry := Entry(company, name, phone, Unallocated, None, StoredLines(lines));
        Ok(l.(till := till, funds := l.funds.(entries := l.funds.entries + [entry])))
  }

  /** The checks made under the wallet locks, before anything is written. */
  method CheckLines(t: Till, company: Company, lines: seq<LineRequest>) returns (refusal: Option<Error>)
    ensures refusal == Refusal(t, company, lines)
  {
    var ids := LockOrder.SortedDistinct(WalletIds(lines));
    for k := 0 to |ids|
      invariant forall j :: 0 <= j < k ==> OwnWallet(t, company, ids[j])
    {
      if ids[k] >= |t.wallets| || t.wallets[ids[k]].company != company {
        assert ids[k] in WalletIds(lines);
        return Some(NotFound);
      }
    }
    forall w | w in WalletIds(lines) ensures OwnWallet(t, company, w) {
      assert w in ids;
    }
    for i := 0 to |lines|
      invariant forall j :: 0 <= j < i ==> !MismatchedLine(t, lines[j])
    {
      assert WalletIds(lines)[i] in WalletIds(lines);
      if lines[i].currency != t.wallets[lines[i].wallet].currency {
        assert MismatchedLine(t, lines[i]);
        return Some(Unbalanced);
      }
    }
    return None;
  }

  method ReceiveLines(session: Session, id: Id, lines: seq<LineRequest>) returns (r: Result<()>, rows: seq<Line>)
    modifies session
    ensures session.db == old(session.db)
    ensures match MovedAll(old(session.view.till), ReceiptOrders(lines), EntryReceipt(id))
            case Ok(t) => r.Ok? && session.view == old(session.view).(till := t) && rows == StoredLines(lines)
            case Err(e) => r == Err(e)
  {
    ghost var orders := ReceiptOrders(lines);
    rows := [];
    for i := 0 to |lines|
      invariant session.db == old(session.db)
      invariant session.view == old(session.view).(till := session.view.till)
      invariant rows == StoredLines(lines)[..i]
      invariant MovedAll(old(session.view.till), orders, EntryReceipt(id))
             == MovedAll(session.view.till, orders[i..], EntryReceipt(id))
    {
      assert orders[i..][0] == orders[i] && orders[i..][1..] == orders[i + 1..];
      if lines[i].wallet >= |session.view.till.wallets| {
        return Err(NotFound), rows;
      }
      r := ApplyMovement(session, Order(lines[i].wallet, In, lines[i].amount), EntryReceipt(id));
      if r.Err? {
        return;
      }
      rows := rows + [Line(lines[i].wallet, lines[i].currency, Round(lines[i].amount))];
    }
    r := Ok(());
  }

  method CreateEntry(
    session: Session, company: Company, name: Option<string>, phone: Option<string>, lines: seq<LineRequest>)
    returns (r: Result<()>)
    requires session.Clean()
    modifies session
    ensures session.Clean()
    ensures Settled(old(session.db), EntryCreated(old(session.db), company, name, phone, lines), session.db, r)
  {
    if lines == [] || exists i :: 0 <= i < |lines| && lines[i].amount <= 0.0 {
      return Err(Invalid);
    }
    var refusal := CheckLines(session.view.till, company, lines);
    if refusal.Some? {
      return Err(refusal.value);
    }
    var entries := session.view.funds.entries;
    var entry := Entry(company, name, phone, Unallocated, None, []);
    session.view := session.view.(funds := session.view.funds.(entries := entries + [entry]));
    var received, rows := ReceiveLines(session, |entries|, lines);
    if received.Err? {
      session.Rollback();
      return received;
    }
    session.view := session.view.(funds := session.view.funds.(entries := entries + [entry.(lines := rows)]));
    session.Commit();
    return Ok(());
  }

  // ---- merge_entries -----------------------------------------------------------------------

  function IsSpace(c: char): bool {
    9 <= c as int <= 13 || 28 <= c as int <= 32
  }

  function StripLeft(s: string): string {
    if s != [] && IsSpace(s[0]) then StripLeft(s[1..]) else s
  }

  function StripRight(s: string): string {
    if s != [] && IsSpace(s[|s| - 1]) then StripRight(s[..|s| - 1]) else s
  }

  function Lower(s: string): string {
    seq(|s|, i requires 0 <= i < |s| => if 'A' <= s[i] <= 'Z' then s[i] - 'A' + 'a' else s[i])
  }

  function ClientKey(entry: Entry): Option<(string, string)> {
    if entry.clientName.None? || entry.clientPhone.None? then None
    else Some((Lower(StripRight(StripLeft(entry.clientName.value))), StripRight(StripLeft(entry.clientPhone.value))))
  }

  /** The error of the first source that may not be merged, given the key of those before it. */
  function MergeRefusal(f: Funds, company: Company, ids: seq<Id>, key: Option<(string, string)>): (r: Option<Error>)
    ensures r.None? ==> forall i :: 0 <= i < |ids| ==>
      Owned(f, company, ids[i]) && Mergeable(f.entries[ids[i]].status) && f.entries[ids[i]].mergedInto.None?
  {
    if ids == [] then None
    else if !Owned(f, company, ids[0]) then Some(NotFound)
    else
      var entry := f.entries[ids[0]];
      var own := ClientKey(entry);
      if !Mergeable(entry.status) || entry.mergedInto.Some? || own.None? || (key.Some? && own != key)
      then Some(Conflict)
      else
        var rest := MergeRefusal(f, company, ids[1..], own);
        assert forall i :: 0 < i < |ids| ==> ids[i] == ids[1..][i - 1];
        rest
  }

  /** The greedy remainder of one source: each line keeps what is still available in its currency. */
  function Carry(lines: seq<Line>, remaining: map<Currency, int>): seq<Line> {
    if lines == [] then []
    else
      var left := Get(remaining, lines[0].currency);
      var take := if lines[0].amount < left then lines[0].amount else left;
      if left <= 0 || take <= 0 then Carry(lines[1..], remaining)
      else [lines[0].(amount := take)] + Carry(lines[1..], remaining[lines[0].currency := left - take])
  }

  function CarriedFrom(f: Funds, e: Id): seq<Line>
    requires e < |f.entries|
  {
    var lines := f.entries[e].lines;
    Carry(lines, Totals(lines, AllocationsOf(f.allocations, e)))
  }

  predicate AllKnown(f: Funds, ids: seq<Id>) {
    forall i :: 0 <= i < |ids| ==> ids[i] < |f.entries|
  }

  function CarriedAll(f: Funds, ids: seq<Id>): seq<Line>
    requires AllKnown(f, ids)
  {
    if ids == [] then [] else CarriedFrom(f, ids[0]) + CarriedAll(f, ids[1..])
  }

  /** `aggregated[(wallet, currency)] += amount`, keys kept in insertion order. */
  function Aggregated(rows: seq<Line>, line: Line): seq<Line> {
    if rows == [] then [line]
    else if rows[0].wallet == line.wallet && rows[0].currency == line.currency
    then [rows[0].(amount := rows[0].amount + line.amount)] + rows[1..]
    else [rows[0]] + Aggregated(rows[1..], line)
  }

  function AggregatedAll(rows: seq<Line>, lines: seq<Line>): seq<Line>
    decreases |lines|
  {
    if lines == [] then rows else AggregatedAll(Aggregated(rows, lines[0]), lines[1..])
  }

  function MarkMerged(entries: seq<Entry>, ids: seq<Id>, target: Id): (r: seq<Entry>)
    requires forall i :: 0 <= i < |ids| ==> ids[i] < |entries|
    ensures |r| == |entries|
    decreases |ids|
  {
    if ids == [] then entries
    else
      assert forall i :: 0 < i < |ids| ==> ids[i] == ids[1..][i - 1];
      MarkMerged(entries[ids[0] := entries[ids[0]].(mergedInto := Some(target))], ids[1..], target)
  }

  predicate Distinct(ids: seq<Id>) {
    forall i, j :: 0 <= i < j < |ids| ==> ids[i] != ids[j]
  }

  function EntriesMerged(l: Ledger, company: Company, ids: seq<Id>): Result<Ledger> {
    if |ids| < 2 then Err(Invalid)
    else if !Distinct(ids) then Err(Conflict)
    else
      match MergeRefusal(l.funds, company, ids, None)
      case Some(error) => Err(error)
      case None =>
        var first := l.funds.entries[ids[0]];
        var lines := AggregatedAll([], CarriedAll(l.funds, ids));
        var merged := Entry(company, first.clientName, first.clientPhone, Unallocated, None, lines);
        Ok(l.(funds := l.funds.(
          entries := MarkMerged(l.funds.entries, ids, |l.funds.entries|) + [merged])))
  }

  method CarryRemainder(lines: seq<Line>, available: map<Currency, int>) returns (carried: seq<Line>)
    ensures carried == Carry(lines, available)
  {
    carried := [];
    var remaining := available;
    for i := 0 to |lines|
      invariant carried + Carry(lines[i..], remaining) == Carry(lines, available)
    {
      assert lines[i..][0] == lines[i] && lines[i..][1..] == lines[i + 1..];
      var line := lines[i];
      var left := Get(remaining, line.currency);
      if left <= 0 {
        continue;
      }
      var take := if line.amount < left then line.amount else left;
      if take <= 0 {
        continue;
      }
      carried := carried + [Line(line.wallet, line.currency, take)];
      remaining := remaining[line.currency := left - take];
    }
  }

  method AggregateLines(lines: seq<Line>) returns (rows: seq<Line>)
    ensures rows == AggregatedAll([], lines)
  {
    rows := [];
    for i := 0 to |lines|
      invariant AggregatedAll(rows, lines[i..]) == AggregatedAll([], lines)
    {
      assert lines[i..][0] == lines[i] && lines[i..][1..] == lines[i + 1..];
      rows := Aggregated(rows, lines[i]);
    }
  }

  /** The loop over the sources: the first refusal, or everything they carry. */
  method CarrySources(funds: Funds, company: Company, ids: seq<Id>) returns (refusal: Option<Error>, carried: seq<Line>)
    ensures refusal == MergeRefusal(funds, company, ids, None)
    ensures refusal.None? ==> AllKnown(funds, ids) && carried == CarriedAll(funds, ids)
  {
    hide Carry, Totals, ClientKey;
    var key: Option<(string, string)> := None;
    carried := [];
    for i := 0 to |ids|
      invariant forall j :: 0 <= j < i ==> ids[j] < |funds.entries|
      invariant MergeRefusal(funds, company, ids, None) == MergeRefusal(funds, company, ids[i..], key)
      invariant AllKnown(funds, ids) ==> carried + CarriedAll(funds, ids[i..]) == CarriedAll(funds, ids)
    {
      assert ids[i..][0] == ids[i] && ids[i..][1..] == ids[i + 1..];
      if ids[i] >= |funds.entries| || funds.entries[ids[i]].company != company {
        return Some(NotFound), carried;
      }
      var entry := funds.entries[ids[i]];
      if !Mergeable(entry.status) {
        return Some(Conflict), carried;
      }
      if entry.mergedInto.Some? {
        return Some(Conflict), carried;
      }
      var own := ClientKey(entry);
      if own.None? {
        return Some(Conflict), carried;
      }
      if key.Some? && own != key {
        return Some(Conflict), carried;
      }
      key := own;
      var totals := AvailableByCurrency(entry.lines, AllocationsOf(funds.allocations, ids[i]));
      var kept := CarryRemainder(entry.lines, totals);
      carried := carried + kept;
    }
    assert AllKnown(funds, ids) && ids[|ids|..] == [];
    assert carried + [] == carried;
    refusal := None;
  }

  /** The loop that marks the sources, once the new entry stands behind them. */
  method MarkSources(entries: seq<Entry>, merged: Entry, ids: seq<Id>) returns (after: seq<Entry>)
    requires forall i :: 0 <= i < |ids| ==> ids[i] < |entries|
    ensures after == MarkMerged(entries, ids, |entries|) + [merged]
  {
    var target := |entries|;
    after := entries + [merged];
    ghost var marked := entries;
    for i := 0 to |ids|
      invariant |marked| == target && after == marked + [merged]
      invariant MarkMerged(marked, ids[i..], target) == MarkMerged(entries, ids, target)
    {
      assert ids[i..][0] == ids[i] && ids[i..][1..] == ids[i + 1..];
      marked := marked[ids[i] := marked[ids[i]].(mergedInto := Some(target))];
      after := after[ids[i] := after[ids[i]].(mergedInto := Some(target))];
    }
  }

  method MergeEntries(session: Session, company: Company, ids: seq<Id>) returns (r: Result<()>)
    requires session.Clean()
    modifies session
    ensures session.Clean()
    ensures Settled(old(session.db), EntriesMerged(old(session.db), company, ids), session.db, r)
  {
    if |ids| < 2 {
      return Err(Invalid);
    }
    if !Distinct(ids) {
      return Err(Conflict);
    }
    var funds := session.view.funds;
    var refusal, carried := CarrySources(funds, company, ids);
    if refusal.Some? {
      return Err(refusal.value);
    }
    var lines := AggregateLines(carried);
    var first := funds.entries[ids[0]];
    var merged := Entry(company, first.clientName, first.clientPhone, Unallocated, None, lines);
    var entries := MarkSources(funds.entries, merged, ids);
    session.view := session.view.(funds := funds.(entries := entries));
    session.Commit();
    return Ok(());
  }

  // ---- cancel_entry ------------------------------------------------------------------------

  function PayBackOrders(lines: seq<Line>): seq<Order> {
    seq(|lines|, i requires 0 <= i < |lines| => Order(lines[i].wallet, Out, Decimal(lines[i].amount)))
  }

  function EntryCancelledBy(l: Ledger, company: Company, e: Id): Result<Ledger> {
    if !Owned(l.funds, company, e) then Err(NotFound)
    else
      var entry := l.funds.entries[e];
      if entry.mergedInto.Some? || AllocationsOf(l.funds.allocations, e) != [] || !Mergeable(entry.status)
      then Err(Conflict)
      else
        var till :- MovedAll(l.till, PayBackOrders(entry.lines), EntryCancellation(e));
        Ok(l.(till := till,
              funds := l.funds.(entries := l.funds.entries[e := entry.(status := EntryCancelled)])))
  }

  method CancelEntry(session: Session, company: Company, e: Id) returns (r: Result<()>)
    requires session.Clean()
    modifies session
    ensures session.Clean()
    ensures Settled(old(session.db), EntryCancelledBy(old(session.db), company, e), session.db, r)
  {
    var funds := session.view.funds;
    if e >= |funds.entries| || funds.entries[e].company != company {
      return Err(NotFound);
    }
    var entry := funds.entries[e];
    if entry.mergedInto.Some? {
      return Err(Conflict);
    }
    if AllocationsOf(funds.allocations, e) != [] {
      return Err(Conflict);
    }
    if !Mergeable(entry.status) {
      return Err(Conflict);
    }
    ghost var orders := PayBackOrders(entry.lines);
    for i := 0 to |entry.lines|
      invariant session.db == old(session.db)
      invariant session.view == old(session.db).(till := session.view.till)
      invariant MovedAll(old(session.db).till, orders, EntryCancellation(e))
             == MovedAll(session.view.till, orders[i..], EntryCancellation(e))
    {
      assert orders[i..][0] == orders[i] && orders[i..][1..] == orders[i + 1..];
      var line := entry.lines[i];
      if line.wallet >= |session.view.till.wallets| {
        session.Rollback();
        return Err(NotFound);
      }
      var moved := ApplyMovement(session, Order(line.wallet, Out, Decimal(line.amount)), EntryCancellation(e));
      if moved.Err? {
        session.Rollback();
        return moved;
      }
    }
    session.view := session.view.(
      funds := funds.(entries := funds.entries[e := entry.(status := EntryCancelled)]));
    session.Commit();
    return Ok(());
  }

  // ---- reserving and releasing part of an entry --------------------------------------------

  function RemoveAt<T>(s: seq<T>, i: nat): seq<T>
    requires i < |s|
  {
    s[..i] + s[i + 1..]
  }

  /** The allocation row is added and the entry's status recomputed. */
  function Reserved(f: Funds, a: Allocation): Funds
    requires a.entry < |f.entries|
  {
    var allocations := f.allocations + [a];
    var entry := f.entries[a.entry];
    Funds(
      f.entries[a.entry := entry.(status := RecomputeStatus(entry.lines, AllocationsOf(f.allocations, a.entry) + [a]))],
      allocations)
  }

  /** The operation's allocation row is deleted, if it has one, and the status of the entry it
      refers to is recomputed either way. */
  function Released(f: Funds, e: Id, target: Id): Funds
    requires e < |f.entries|
  {
    var allocations :=
      match FindTarget(f.allocations, target)
      case Some(i) => RemoveAt(f.allocations, i)
      case None => f.allocations;
    var entry := f.entries[e];
    Funds(f.entries[e := entry.(status := RecomputeStatus(entry.lines, AllocationsOf(allocations, e)))], allocations)
  }

  // ---- merging preserves spendable money ---------------------------------------------------

  lemma {:induction false} SumLinesConcat(a: seq<Line>, b: seq<Line>, c: Currency)
    ensures SumLines(a + b, c) == SumLines(a, c) + SumLines(b, c)
  {
    if a == [] {
      assert a + b == b;
    } else {
      assert (a + b)[1..] == a[1..] + b;
      SumLinesConcat(a[1..], b, c);
    }
  }

  lemma {:induction false} SumLinesNonNegative(lines: seq<Line>, c: Currency)
    requires forall i :: 0 <= i < |lines| ==> lines[i].amount >= 0
    ensures SumLines(lines, c) >= 0
  {
    if lines != [] {
      SumLinesNonNegative(lines[1..], c);
    }
  }

  /** The greedy loop carries the whole remainder, up to what the lines hold. */
  lemma {:induction false} CarryTotal(lines: seq<Line>, remaining: map<Currency, int>, c: Currency)
    requires forall i :: 0 <= i < |lines| ==> lines[i].amount >= 0
    requires forall d :: Get(remaining, d) >= 0
    ensures SumLines(Carry(lines, remaining), c)
         == if SumLines(lines, c) < Get(remaining, c) then SumLines(lines, c) else Get(remaining, c)
    decreases |lines|
  {
    SumLinesNonNegative(lines, c);
    if lines != [] {
      SumLinesNonNegative(lines[1..], c);
      var left := Get(remaining, lines[0].currency);
      var take := if lines[0].amount < left then lines[0].amount else left;
      if left <= 0 || take <= 0 {
        CarryTotal(lines[1..], remaining, c);
      } else {
        var rest := remaining[lines[0].currency := left - take];
        assert forall d :: Get(rest, d) == if d == lines[0].currency then left - take else Get(remaining, d);
        CarryTotal(lines[1..], rest, c);
        var head := lines[0].(amount := take);
        assert ([head] + Carry(lines[1..], rest))[1..] == Carry(lines[1..], rest);
      }
    }
  }

  /** Carried line k comes from line `origin[k]`: in order, each from a line of its own, with its wallet and
      currency, and a positive amount of at most what that line held. */
  ghost predicate Shrunk(lines: seq<Line>, carried: seq<Line>, origin: seq<nat>) {
    && |origin| == |carried|
    && (forall k :: 0 <= k < |origin| ==> origin[k] < |lines|)
    && (forall j, k :: 0 <= j < k < |origin| ==> origin[j] < origin[k])
    && (forall k :: 0 <= k < |origin| ==>
          && carried[k] == lines[origin[k]].(amount := carried[k].amount)
          && 0 < carried[k].amount <= lines[origin[k]].amount)
  }

  /** Line `i` is carried whole, unless there is nothing on it. */
  ghost predicate Whole(lines: seq<Line>, carried: seq<Line>, origin: seq<nat>, i: nat)
    requires i < |lines| && |origin| == |carried|
  {
    lines[i].amount > 0 ==> exists j :: 0 <= j < |origin| && origin[j] == i && carried[j].amount == lines[i].amount
  }

  /** The lines before a carried one that are in its currency are carried whole. */
  ghost predicate Greedy(lines: seq<Line>, carried: seq<Line>, origin: seq<nat>) {
    Shrunk(lines, carried, origin) && forall k, i ::
      0 <= k < |origin| && 0 <= i < origin[k] && lines[i].currency == carried[k].currency ==>
        Whole(lines, carried, origin, i)
  }

  lemma {:induction false} NothingLeftToCarry(lines: seq<Line>, remaining: map<Currency, int>, c: Currency)
    requires Get(remaining, c) <= 0
    ensures forall k :: 0 <= k < |Carry(lines, remaining)| ==> Carry(lines, remaining)[k].currency != c
    decreases |lines|
  {
    if lines != [] {
      var left := Get(remaining, lines[0].currency);
      var take := if lines[0].amount < left then lines[0].amount else left;
      if left <= 0 || take <= 0 {
        NothingLeftToCarry(lines[1..], remaining, c);
      } else {
        NothingLeftToCarry(lines[1..], remaining[lines[0].currency := left - take], c);
      }
    }
  }

  function Shifted(rest: seq<nat>): (origin: seq<nat>)
    ensures |origin| == |rest| && forall k :: 0 <= k < |rest| ==> origin[k] == rest[k] + 1
  {
    seq(|rest|, k requires 0 <= k < |rest| => rest[k] + 1)
  }

  lemma SkippingIsGreedy(lines: seq<Line>, carried: seq<Line>, rest: seq<nat>)
    requires lines != [] && Greedy(lines[1..], carried, rest)
    requires lines[0].amount <= 0 || forall k :: 0 <= k < |carried| ==> carried[k].currency != lines[0].currency
    ensures Greedy(lines, carried, Shifted(rest))
  {
    var origin := Shifted(rest);
    forall k, i | 0 <= k < |origin| && 0 <= i < origin[k] && lines[i].currency == carried[k].currency
      ensures Whole(lines, carried, origin, i)
    {
      if i > 0 && lines[i].amount > 0 {
        assert Whole(lines[1..], carried, rest, i - 1);
        var j :| 0 <= j < |rest| && rest[j] == i - 1 && carried[j].amount == lines[i].amount;
        assert origin[j] == i;
      }
    }
  }

  lemma WholeBehind(lines: seq<Line>, head: Line, carried: seq<Line>, rest: seq<nat>, i: nat)
    requires 0 < i < |lines| && |rest| == |carried| && Whole(lines[1..], carried, rest, i - 1)
    ensures Whole(lines, [head] + carried, [0] + Shifted(rest), i)
  {
    if lines[i].amount > 0 {
      var j :| 0 <= j < |rest| && rest[j] == i - 1 && carried[j].amount == lines[1..][i - 1].amount;
      assert ([0] + Shifted(rest))[j + 1] == i && ([head] + carried)[j + 1] == carried[j];
    }
  }

  lemma TakingShrinks(lines: seq<Line>, take: int, carried: seq<Line>, rest: seq<nat>)
    requires lines != [] && 0 < take <= lines[0].amount && Shrunk(lines[1..], carried, rest)
    ensures Shrunk(lines, [lines[0].(amount := take)] + carried, [0] + Shifted(rest))
  {
  }

  lemma TakingIsGreedy(lines: seq<Line>, take: int, carried: seq<Line>, rest: seq<nat>)
    requires lines != [] && 0 < take <= lines[0].amount && Greedy(lines[1..], carried, rest)
    requires take == lines[0].amount || forall k :: 0 <= k < |carried| ==> carried[k].currency != lines[0].currency
    ensures Greedy(lines, [lines[0].(amount := take)] + carried, [0] + Shifted(rest))
  {
    TakingShrinks(lines, take, carried, rest);
    hide Shrunk, Whole;
    var origin, head := [0] + Shifted(rest), lines[0].(amount := take);
    var all := [head] + carried;
    forall k, i | 0 <= k < |origin| && 0 <= i < origin[k] && lines[i].currency == all[k].currency
      ensures Whole(lines, all, origin, i)
    {
      assert k > 0 && all[k] == carried[k - 1] && origin[k] == rest[k - 1] + 1;
      if i == 0 {
        FirstIsWhole(lines, take, carried, rest);
      } else {
        assert lines[1..][i - 1] == lines[i];
        WholeBehind(lines, head, carried, rest, i);
      }
    }
  }

  lemma FirstIsWhole(lines: seq<Line>, take: int, carried: seq<Line>, rest: seq<nat>)
    requires lines != [] && take == lines[0].amount && |rest| == |carried|
    ensures Whole(lines, [lines[0].(amount := take)] + carried, [0] + Shifted(rest), 0)
  {
    assert ([0] + Shifted(rest))[0] == 0;
  }

  /** The carried lines are shrunk ones, taken greedily from the first on: a line is cut or left out only
      if nothing of its currency is carried from a later one. */
  lemma {:induction false} CarriedLinesShrink(lines: seq<Line>, remaining: map<Currency, int>)
    returns (origin: seq<nat>)
    ensures Greedy(lines, Carry(lines, remaining), origin)
    decreases |lines|
  {
    hide Greedy;
    if lines == [] {
      origin := [];
      NoneIsGreedy(lines);
    } else {
      var left := Get(remaining, lines[0].currency);
      var take := if lines[0].amount < left then lines[0].amount else left;
      if left <= 0 || take <= 0 {
        var rest := CarriedLinesShrink(lines[1..], remaining);
        if left <= 0 {
          NothingLeftToCarry(lines[1..], remaining, lines[0].currency);
        }
        SkippingIsGreedy(lines, Carry(lines[1..], remaining), rest);
        origin := Shifted(rest);
      } else {
        var after := remaining[lines[0].currency := left - take];
        var rest := CarriedLinesShrink(lines[1..], after);
        if take < lines[0].amount {
          NothingLeftToCarry(lines[1..], after, lines[0].currency);
        }
        TakingIsGreedy(lines, take, Carry(lines[1..], after), rest);
        origin := [0] + Shifted(rest);
      }
    }
  }

  lemma NoneIsGreedy(lines: seq<Line>)
    ensures Greedy(lines, [], [])
  {
  }

  /** What one wallet contributed in one currency. */
  function SumFrom(lines: seq<Line>, w: Id, c: Currency): int {
    if lines == [] then 0
    else (if lines[0].wallet == w && lines[0].currency == c then lines[0].amount else 0) + SumFrom(lines[1..], w, c)
  }

  lemma {:induction false} AggregatedKeepsTotals(rows: seq<Line>, line: Line, w: Id, c: Currency)
    ensures SumLines(Aggregated(rows, line), c)
         == SumLines(rows, c) + if line.currency == c then line.amount else 0
    ensures SumFrom(Aggregated(rows, line), w, c)
         == SumFrom(rows, w, c) + if line.wallet == w && line.currency == c then line.amount else 0
  {
    if rows == [] {
    } else if rows[0].wallet == line.wallet && rows[0].currency == line.currency {
      assert Aggregated(rows, line)[1..] == rows[1..];
    } else {
      assert Aggregated(rows, line)[1..] == Aggregated(rows[1..], line);
      AggregatedKeepsTotals(rows[1..], line, w, c);
    }
  }

  lemma {:induction false} AggregatedAllKeepsTotals(rows: seq<Line>, lines: seq<Line>, w: Id, c: Currency)
    ensures SumLines(AggregatedAll(rows, lines), c) == SumLines(rows, c) + SumLines(lines, c)
    ensures SumFrom(AggregatedAll(rows, lines), w, c) == SumFrom(rows, w, c) + SumFrom(lines, w, c)
    decreases |lines|
  {
    if lines != [] {
      AggregatedKeepsTotals(rows, lines[0], w, c);
      AggregatedAllKeepsTotals(Aggregated(rows, lines[0]), lines[1..], w, c);
    }
  }

  predicate SameKey(a: Line, b: Line) {
    a.wallet == b.wallet && a.currency == b.currency
  }

  predicate DistinctKeys(rows: seq<Line>) {
    forall i, j :: 0 <= i < j < |rows| ==> !SameKey(rows[i], rows[j])
  }

  /** Every row's key is the new line's or an old row's. */
  lemma {:induction false} AggregatedKeys(rows: seq<Line>, line: Line)
    requires DistinctKeys(rows)
    ensures DistinctKeys(Aggregated(rows, line))
    ensures forall k :: 0 <= k < |Aggregated(rows, line)| ==>
      var row := Aggregated(rows, line)[k];
      SameKey(row, line) || exists j :: 0 <= j < |rows| && SameKey(rows[j], row)
  {
    if rows == [] {
    } else if SameKey(rows[0], line) {
    } else {
      AggregatedKeys(rows[1..], line);
      var rest := Aggregated(rows[1..], line);
      forall k | 0 <= k < |rest|
        ensures !SameKey(rest[k], rows[0])
        ensures SameKey(rest[k], line) || exists j :: 0 <= j < |rows| && SameKey(rows[j], rest[k])
      {
        if !SameKey(rest[k], line) {
          var j :| 0 <= j < |rows[1..]| && SameKey(rows[1..][j], rest[k]);
          assert rows[j + 1] == rows[1..][j];
        }
      }
    }
  }

  lemma {:induction false} AggregatedAllKeys(rows: seq<Line>, lines: seq<Line>)
    requires DistinctKeys(rows)
    ensures DistinctKeys(AggregatedAll(rows, lines))
    decreases |lines|
  {
    if lines != [] {
      AggregatedKeys(rows, lines[0]);
      AggregatedAllKeys(Aggregated(rows, lines[0]), lines[1..]);
    }
  }

  lemma {:induction false} AggregatedAllLast(rows: seq<Line>, lines: seq<Line>, line: Line)
    ensures AggregatedAll(rows, lines + [line]) == Aggregated(AggregatedAll(rows, lines), line)
    decreases |lines|
  {
    if lines == [] {
      assert (lines + [line])[1..] == [];
    } else {
      assert (lines + [line])[1..] == lines[1..] + [line];
      AggregatedAllLast(Aggregated(rows, lines[0]), lines[1..], line);
    }
  }

  /** A row has the line's wallet and currency. */
  predicate Covered(rows: seq<Line>, line: Line) {
    exists k :: 0 <= k < |rows| && SameKey(rows[k], line)
  }

  /** Adding a line keeps the keys where they are, and puts a new one at the end. */
  lemma {:induction false} AggregatedKeepsKeys(rows: seq<Line>, line: Line)
    ensures var after := Aggregated(rows, line);
      && |after| == (if Covered(rows, line) then |rows| else |rows| + 1)
      && (forall k :: 0 <= k < |rows| ==> SameKey(after[k], rows[k]))
      && (|after| > |rows| ==> SameKey(after[|rows|], line))
  {
    if rows != [] && !SameKey(rows[0], line) {
      AggregatedKeepsKeys(rows[1..], line);
      if k :| 0 <= k < |rows| && SameKey(rows[k], line) {
        assert SameKey(rows[1..][k - 1], line);
      }
    }
  }

  /** The row's wallet and currency occur in line `i` and in none before it. */
  predicate FirstAt(row: Line, lines: seq<Line>, i: nat) {
    i < |lines| && SameKey(row, lines[i]) && forall j :: 0 <= j < i ==> !SameKey(row, lines[j])
  }

  /** The rows come in the order in which their wallets and currencies first occur, and cover every line. */
  ghost predicate InOrder(rows: seq<Line>, lines: seq<Line>, first: seq<nat>) {
    && |first| == |rows|
    && (forall j, k :: 0 <= j < k < |first| ==> first[j] < first[k])
    && (forall k :: 0 <= k < |first| ==> FirstAt(rows[k], lines, first[k]))
    && (forall i :: 0 <= i < |lines| ==> Covered(rows, lines[i]))
  }

  lemma CoverageGrows(rows: seq<Line>, line: Line, other: Line)
    ensures Covered(Aggregated(rows, line), other) <==> Covered(rows, other) || SameKey(line, other)
  {
    AggregatedKeepsKeys(rows, line);
    var after := Aggregated(rows, line);
    hide Aggregated;
    if k :| 0 <= k < |rows| && SameKey(rows[k], other) {
      assert SameKey(after[k], other);
    } else if SameKey(line, other) {
      assert SameKey(after[|rows|], other);
    }
  }

  lemma FirstStays(row: Line, after: Line, lines: seq<Line>, line: Line, i: nat)
    requires FirstAt(row, lines, i) && SameKey(after, row)
    ensures FirstAt(after, lines + [line], i)
  {
  }

  lemma NewIsFirst(rows: seq<Line>, lines: seq<Line>, row: Line, line: Line)
    requires SameKey(row, line) && !Covered(rows, line) && forall i :: 0 <= i < |lines| ==> Covered(rows, lines[i])
    ensures FirstAt(row, lines + [line], |lines|)
  {
    forall i | 0 <= i < |lines| ensures !SameKey(row, lines[i]) {
      assert Covered(rows, lines[i]);
      var k :| 0 <= k < |rows| && SameKey(rows[k], lines[i]);
      assert !SameKey(rows[k], line);
    }
  }

  lemma KeysStayInOrder(rows: seq<Line>, lines: seq<Line>, line: Line, first: seq<nat>)
    requires InOrder(rows, lines, first)
    ensures |Aggregated(rows, line)| >= |rows|
    ensures forall k :: 0 <= k < |first| ==> FirstAt(Aggregated(rows, line)[k], lines + [line], first[k])
    ensures forall i :: 0 <= i < |lines + [line]| ==> Covered(Aggregated(rows, line), (lines + [line])[i])
  {
    AggregatedKeepsKeys(rows, line);
    hide Aggregated, Covered, FirstAt;
    forall k | 0 <= k < |first| ensures FirstAt(Aggregated(rows, line)[k], lines + [line], first[k]) {
      FirstStays(rows[k], Aggregated(rows, line)[k], lines, line, first[k]);
    }
    forall i | 0 <= i < |lines + [line]| ensures Covered(Aggregated(rows, line), (lines + [line])[i]) {
      CoverageGrows(rows, line, (lines + [line])[i]);
    }
  }

  lemma LastInOrder(rows: seq<Line>, lines: seq<Line>, first: seq<nat>, n: nat)
    requires |rows| == |first| + 1 && FirstAt(rows[|first|], lines, n)
    requires forall k :: 0 <= k < |first| ==> first[k] < n && FirstAt(rows[k], lines, first[k])
    requires forall j, k :: 0 <= j < k < |first| ==> first[j] < first[k]
    requires forall i :: 0 <= i < |lines| ==> Covered(rows, lines[i])
    ensures InOrder(rows, lines, first + [n])
  {
    hide FirstAt, Covered;
  }

  lemma NextInOrder(rows: seq<Line>, lines: seq<Line>, line: Line, first: seq<nat>)
    requires InOrder(rows, lines, first)
    ensures InOrder(Aggregated(rows, line), lines + [line], if Covered(rows, line) then first else first + [|lines|])
  {
    KeysStayInOrder(rows, lines, line, first);
    AggregatedKeepsKeys(rows, line);
    forall k | 0 <= k < |first| ensures first[k] < |lines| {
      assert FirstAt(rows[k], lines, first[k]);
    }
    hide Aggregated, Covered, FirstAt, SameKey;
    if !Covered(rows, line) {
      NewIsFirst(rows, lines, Aggregated(rows, line)[|rows|], line);
      LastInOrder(Aggregated(rows, line), lines + [line], first, |lines|);
    }
  }

  /** The merged lines come in the order in which their wallets and currencies first occur. */
  lemma {:induction false} AggregatedInOrder(lines: seq<Line>) returns (first: seq<nat>)
    ensures InOrder(AggregatedAll([], lines), lines, first)
  {
    first := [];
    if lines != [] {
      var n := |lines| - 1;
      assert lines == lines[..n] + [lines[n]];
      first := AggregatedInOrder(lines[..n]);
      AggregatedAllLast([], lines[..n], lines[n]);
      NextInOrder(AggregatedAll([], lines[..n]), lines[..n], lines[n], first);
      if !Covered(AggregatedAll([], lines[..n]), lines[n]) {
        first := first + [n];
      }
    }
  }
}
