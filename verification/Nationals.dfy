/** National operations and their reversal (app/schemas/national_operation.py,
    app/services/national_operation_service.py). */
module Nationals {
  import opened Money
  import opened Sums
  import opened Tables
  import opened Wallets
  import Entries

  // ---- the request schema ------------------------------------------------------------------

  datatype LineRequest = LineRequest(wallet: Id, amountIn: real, amountOut: real, currency: Currency)

  datatype Request = Request(exchangeRate: Option<real>, lines: seq<LineRequest>)

  predicate SingleDirection(line: LineRequest) {
    && line.amountIn >= 0.0 && line.amountOut >= 0.0
    && !(line.amountIn > 0.0 && line.amountOut > 0.0)
    && !(line.amountIn == 0.0 && line.amountOut == 0.0)
  }

  predicate DistinctWallets(lines: seq<LineRequest>) {
    forall i, j :: 0 <= i < j < |lines| ==> lines[i].wallet != lines[j].wallet
  }

  /** Unrounded IN minus OUT of one currency. */
  function TotalOf(lines: seq<LineRequest>, c: Currency): real {
    if lines == [] then 0.0
    else (if lines[0].currency == c then lines[0].amountIn - lines[0].amountOut else 0.0) + TotalOf(lines[1..], c)
  }

  function CurrenciesOf(lines: seq<LineRequest>): set<Currency> {
    set line | line in lines :: line.currency
  }

  /** One rate converts the net output of one currency into the net input of the other, to 0.01. */
  predicate Converts(source: real, dest: real, rate: real) {
    && source < 0.0 < dest
    && -0.01 <= -source * rate - dest <= 0.01
  }

  predicate Balanced(q: Request) {
    var currencies := CurrenciesOf(q.lines);
    if |currencies| == 1 then
      q.exchangeRate.None? && forall c | c in currencies :: TotalOf(q.lines, c) == 0.0
    else if |currencies| == 2 then
      && q.exchangeRate.Some?
      && exists a, b | a in currencies && b in currencies ::
           a != b && Converts(TotalOf(q.lines, a), TotalOf(q.lines, b), q.exchangeRate.value)
    else false
  }

  predicate ValidRequest(q: Request) {
    && |q.lines| >= 2
    && (q.exchangeRate.Some? ==> q.exchangeRate.value > 0.0)
    && (forall i :: 0 <= i < |q.lines| ==> SingleDirection(q.lines[i]))
    && DistinctWallets(q.lines)
    && Balanced(q)
  }

  function RealOf(totals: map<Currency, real>, c: Currency): real {
    if c in totals then totals[c] else 0.0
  }

  /** The totals dictionary, with its keys in insertion order. */
  method SumByCurrency(lines: seq<LineRequest>) returns (totals: map<Currency, real>, keys: seq<Currency>)
    ensures totals.Keys == CurrenciesOf(lines) && |keys| == |CurrenciesOf(lines)|
    ensures forall c :: c in keys <==> c in totals
    ensures forall c :: c in totals ==> totals[c] == TotalOf(lines, c)
  {
    totals, keys := map[], [];
    for i := 0 to |lines|
      invariant totals.Keys == CurrenciesOf(lines[..i])
      invariant |keys| == |totals| && (forall c :: c in keys <==> c in totals)
      invariant forall c :: RealOf(totals, c) + TotalOf(lines[i..], c) == TotalOf(lines, c)
    {
      var line := lines[i];
      assert lines[..i + 1] == lines[..i] + [line];
      if line.currency !in totals {
        keys := keys + [line.currency];
      }
      totals := totals[line.currency := RealOf(totals, line.currency) + (line.amountIn - line.amountOut)];
    }
    assert lines[..|lines|] == lines;
    assert |totals| == |totals.Keys|;
    assert forall c | c in totals :: totals[c] == RealOf(totals, c);
  }

  lemma {:induction false} PairBalanced(q: Request, a: Currency, b: Currency)
    requires CurrenciesOf(q.lines) == {a, b} && a != b && q.exchangeRate.Some?
    ensures Balanced(q) <==>
      || Converts(TotalOf(q.lines, a), TotalOf(q.lines, b), q.exchangeRate.value)
      || Converts(TotalOf(q.lines, b), TotalOf(q.lines, a), q.exchangeRate.value)
  {
    assert |{a, b}| == 2;
  }

  /** The two-currency branch: which total is the source, and whether the rate explains the other. */
  method ValidateExchange(a: real, b: real, rate: real) returns (ok: bool)
    ensures ok <==> Converts(a, b, rate) || Converts(b, a, rate)
  {
    var source, dest;
    if a < 0.0 && b > 0.0 {
      source, dest := a, b;
    } else if b < 0.0 && a > 0.0 {
      source, dest := b, a;
    } else {
      return false;
    }
    var expected := -source * rate;
    return -0.01 <= expected - dest <= 0.01;
  }

  /** `_validate_balance_per_currency`. */
  method ValidateBalance(q: Request) returns (ok: bool)
    ensures ok == Balanced(q)
  {
    var totals, keys := SumByCurrency(q.lines);
    if |keys| == 1 {
      var key := keys[0];
      assert CurrenciesOf(q.lines) == {key};
      return q.exchangeRate.None? && totals[key] == 0.0;
    }
    if |keys| != 2 || q.exchangeRate.None? {
      return false;
    }
    var a, b := keys[0], keys[1];
    assert CurrenciesOf(q.lines) == {a, b};
    PairBalanced(q, a, b);
    ok := ValidateExchange(totals[a], totals[b], q.exchangeRate.value);
  }

  // ---- create_operation --------------------------------------------------------------------

  function OrderOf(line: LineRequest): Order {
    Order(line.wallet, if line.amountIn > 0.0 then In else Out,
          if line.amountIn > 0.0 then line.amountIn else line.amountOut)
  }

  function OrdersOf(lines: seq<LineRequest>): seq<Order> {
    seq(|lines|, i requires 0 <= i < |lines| => OrderOf(lines[i]))
  }

  /** The lines as the wallet checks see them. */
  function Checked(lines: seq<LineRequest>): seq<Entries.LineRequest> {
    seq(|lines|, i requires 0 <= i < |lines| =>
      Entries.LineRequest(lines[i].wallet, OrderOf(lines[i]).amount, lines[i].currency))
  }

  /** A stored line; the amounts are rounded by the `Numeric(18, 2)` columns. */
  function RowOf(line: LineRequest, move: WalletMove): NationalLine {
    NationalLine(line.wallet, Round(line.amountIn), Round(line.amountOut), line.currency, move.before, move.after)
  }

  function RowsOf(lines: seq<LineRequest>, moves: seq<WalletMove>): (rows: seq<NationalLine>)
    requires |moves| == |lines|
    ensures |rows| == |lines|
  {
    seq(|lines|, i requires 0 <= i < |lines| => RowOf(lines[i], moves[i]))
  }

  function StoredExchange(q: Request): Option<real> {
    if q.exchangeRate.Some? then Some(StoredRate(q.exchangeRate.value)) else None
  }

  function OperationCreated(l: Ledger, company: Company, q: Request): Result<Ledger> {
    if !ValidRequest(q) then Err(Invalid)
    else
      match Entries.Refusal(l.till, company, Checked(q.lines))
      case Some(e) => Err(e)
      case None =>
        var till :- MovedAll(l.till, OrdersOf(q.lines), NationalOperation(|l.nationals|));
        var rows := RowsOf(q.lines, till.moves[|l.till.moves|..]);
        Ok(l.(till := till, nationals := l.nationals + [National(company, true, StoredExchange(q), rows, None)]))
  }

  method CreateOperation(session: Session, company: Company, q: Request) returns (r: Result<()>)
    requires session.Clean()
    modifies session
    ensures session.Clean()
    ensures Settled(old(session.db), OperationCreated(old(session.db), company, q), session.db, r)
  {
    var balanced := ValidateBalance(q);
    if !(|q.lines| >= 2 && (q.exchangeRate.Some? ==> q.exchangeRate.value > 0.0)
         && (forall i :: 0 <= i < |q.lines| ==> SingleDirection(q.lines[i])) && DistinctWallets(q.lines) && balanced) {
      return Err(Invalid);
    }
    var refusal := Entries.CheckLines(session.view.till, company, Checked(q.lines));
    if refusal.Some? {
      return Err(refusal.value);
    }
    var id := |session.view.nationals|;
    var moved, rows := MoveLines(session, id, q.lines);
    if moved.Err? {
      session.Rollback();
      return moved;
    }
    session.view := session.view.(
      nationals := session.view.nationals + [National(company, true, StoredExchange(q), rows, None)]);
    session.Commit();
    return Ok(());
  }

  method MoveLines(session: Session, id: Id, lines: seq<LineRequest>) returns (r: Result<()>, rows: seq<NationalLine>)
    modifies session
    ensures session.db == old(session.db)
    ensures match MovedAll(old(session.view.till), OrdersOf(lines), NationalOperation(id))
            case Ok(t) =>
              && r.Ok? && session.view == old(session.view).(till := t)
              && rows == RowsOf(lines, t.moves[|old(session.view.till.moves)|..])
            case Err(e) => r == Err(e)
  {
    hide Moved;
    ghost var orders := OrdersOf(lines);
    ghost var base := |session.view.till.moves|;
    rows := [];
    for i := 0 to |lines|
      invariant session.db == old(session.db)
      invariant session.view == old(session.view).(till := session.view.till)
      invariant |session.view.till.moves| == base + i
      invariant session.view.till.moves[..base] == old(session.view.till.moves)
      invariant rows == RowsOf(lines[..i], session.view.till.moves[base..])
      invariant MovedAll(old(session.view.till), orders, NationalOperation(id))
             == MovedAll(session.view.till, orders[i..], NationalOperation(id))
    {
      assert orders[i..][0] == orders[i] && orders[i..][1..] == orders[i + 1..];
      var line := lines[i];
      if line.wallet >= |session.view.till.wallets| {
        MissingWallet(session.view.till, orders[i], NationalOperation(id));
        return Err(NotFound), rows;
      }
      var direction := if line.amountIn > 0.0 then In else Out;
      var amount := if line.amountIn > 0.0 then line.amountIn else line.amountOut;
      ghost var till := session.view.till;
      r := ApplyMovement(session, Order(line.wallet, direction, amount), NationalOperation(id));
      if r.Err? {
        return;
      }
      MovedAppends(till, Order(line.wallet, direction, amount), NationalOperation(id));
      ghost var moves := session.view.till.moves;
      rows := rows + [RowOf(line, session.view.till.moves[|session.view.till.moves| - 1])];
      assert lines[..i + 1] == lines[..i] + [line] && moves[base..] == till.moves[base..] + [moves[|moves| - 1]];
    }
    assert lines[..|lines|] == lines;
    r := Ok(());
  }

  // ---- cancel_operation --------------------------------------------------------------------

  /** The stored line with IN and OUT exchanged, as a request for the reversing movement. */
  function Mirrored(line: NationalLine): LineRequest {
    LineRequest(line.wallet, Decimal(line.amountOut), Decimal(line.amountIn), line.currency)
  }

  function MirroredAll(lines: seq<NationalLine>): (r: seq<LineRequest>)
    ensures |r| == |lines|
  {
    seq(|lines|, i requires 0 <= i < |lines| => Mirrored(lines[i]))
  }

  function OperationReversed(l: Ledger, company: Company, n: Id): Result<Ledger> {
    if n >= |l.nationals| || l.nationals[n].company != company then Err(NotFound)
    else
      var original := l.nationals[n];
      if !original.validated then Err(Conflict)
      else if exists i :: 0 <= i < |original.lines| && original.lines[i].wallet >= |l.till.wallets| then Err(NotFound)
      else
        var till :- MovedAll(l.till, OrdersOf(MirroredAll(original.lines)), NationalOperation(|l.nationals|));
        var rows := RowsOf(MirroredAll(original.lines), till.moves[|l.till.moves|..]);
        Ok(l.(till := till,
              nationals := l.nationals[n := original.(validated := false)]
                           + [National(company, true, original.exchangeRate, rows, Some(n))]))
  }

  method CancelOperation(session: Session, company: Company, n: Id) returns (r: Result<()>)
    requires session.Clean()
    modifies session
    ensures session.Clean()
    ensures Settled(old(session.db), OperationReversed(old(session.db), company, n), session.db, r)
  {
    var nationals := session.view.nationals;
    if n >= |nationals| || nationals[n].company != company {
      return Err(NotFound);
    }
    var original := nationals[n];
    if !original.validated {
      return Err(Conflict);
    }
    for i := 0 to |original.lines|
      invariant forall j :: 0 <= j < i ==> original.lines[j].wallet < |session.db.till.wallets|
    {
      if original.lines[i].wallet >= |session.view.till.wallets| {
        return Err(NotFound);
      }
    }
    var id := |nationals|;
    var moved, rows := MoveLines(session, id, MirroredAll(original.lines));
    if moved.Err? {
      session.Rollback();
      return moved;
    }
    var reversal := National(company, true, original.exchangeRate, rows, Some(n));
    session.view := session.view.(nationals := nationals[n := original.(validated := false)] + [reversal]);
    session.Commit();
    return Ok(());
  }

  // ---- reversal chains ---------------------------------------------------------------------

  /** What the stored lines do to a wallet. */
  function LineEffect(lines: seq<NationalLine>, w: Id): int {
    if lines == [] then 0
    else (if lines[0].wallet == w then lines[0].amountIn - lines[0].amountOut else 0) + LineEffect(lines[1..], w)
  }

  /** A stored line: one direction only, and rounded amounts. */
  predicate StoredLine(line: NationalLine) {
    line.amountIn >= 0 && line.amountOut >= 0 && (line.amountIn == 0 || line.amountOut == 0)
  }

  predicate Mirrors(a: seq<NationalLine>, b: seq<NationalLine>) {
    |a| == |b| && forall i :: 0 <= i < |a| ==>
      b[i] == NationalLine(a[i].wallet, a[i].amountOut, a[i].amountIn, a[i].currency, b[i].before, b[i].after)
  }

  lemma {:induction false} MirrorNegates(a: seq<NationalLine>, b: seq<NationalLine>, w: Id)
    requires Mirrors(a, b)
    ensures LineEffect(b, w) == -LineEffect(a, w)
  {
    if a != [] {
      MirrorNegates(a[1..], b[1..], w);
    }
  }

  lemma ReversalRowsMirror(lines: seq<NationalLine>, moves: seq<WalletMove>)
    requires |moves| == |lines|
    ensures Mirrors(lines, RowsOf(MirroredAll(lines), moves))
  {
    forall i | 0 <= i < |lines|
      ensures RowsOf(MirroredAll(lines), moves)[i].amountIn == lines[i].amountOut
      ensures RowsOf(MirroredAll(lines), moves)[i].amountOut == lines[i].amountIn
    {
      RoundWholeCents(lines[i].amountOut);
      RoundWholeCents(lines[i].amountIn);
    }
  }

  /** `reversal_of_id`, read backwards. */
  function ReversalOf(nationals: seq<National>, n: Id): (r: Option<nat>)
    ensures r.Some? ==> r.value < |nationals| && nationals[r.value].reversalOf == Some(n)
    ensures r.None? ==> forall i :: 0 <= i < |nationals| ==> nationals[i].reversalOf != Some(n)
  {
    if nationals == [] then None
    else if nationals[|nationals| - 1].reversalOf == Some(n) then Some(|nationals| - 1)
    else ReversalOf(nationals[..|nationals| - 1], n)
  }

  /** A reversal comes after the one operation it reverses, which it cancels and mirrors. */
  ghost predicate Reverses(nationals: seq<National>, n: Id)
    requires n < |nationals|
  {
    nationals[n].reversalOf.Some? ==>
      var m := nationals[n].reversalOf.value;
      && m < n
      && !nationals[m].validated
      && Mirrors(nationals[m].lines, nationals[n].lines)
      && nationals[n].company == nationals[m].company && nationals[n].exchangeRate == nationals[m].exchangeRate
  }

  ghost predicate IsReversed(nationals: seq<National>, n: Id) {
    exists i :: 0 <= i < |nationals| && nationals[i].reversalOf == Some(n)
  }

  ghost predicate NationalBook(nationals: seq<National>) {
    && (forall n :: 0 <= n < |nationals| ==> Reverses(nationals, n))
    && (forall n :: 0 <= n < |nationals| ==> (nationals[n].validated <==> !IsReversed(nationals, n)))
    && (forall i, j :: 0 <= i < j < |nationals| && nationals[i].reversalOf.Some? ==>
          nationals[i].reversalOf != nationals[j].reversalOf)
  }

  lemma CreationKeepsBook(nationals: seq<National>, created: National)
    requires NationalBook(nationals) && created.validated && created.reversalOf.None?
    ensures NationalBook(nationals + [created])
  {
    var after := nationals + [created];
    forall n | 0 <= n < |after| ensures Reverses(after, n) {
      assert n < |nationals| ==> Reverses(nationals, n);
    }
    forall n | 0 <= n < |after| ensures after[n].validated <==> !IsReversed(after, n) {
      if n < |nationals| {
        forall i | 0 <= i < |nationals| ensures after[i] == nationals[i] {}
        if IsReversed(nationals, n) {
          var i :| 0 <= i < |nationals| && nationals[i].reversalOf == Some(n);
          assert after[i].reversalOf == Some(n);
        }
      } else {
        forall i | 0 <= i < |after| ensures after[i].reversalOf != Some(n) {
          assert i < |nationals| ==> Reverses(nationals, i);
        }
      }
    }
  }

  lemma ReversalKeepsBook(nationals: seq<National>, n: Id, reversal: National)
    requires NationalBook(nationals) && n < |nationals| && nationals[n].validated
    requires reversal.validated && reversal.reversalOf == Some(n)
    requires reversal.company == nationals[n].company && reversal.exchangeRate == nationals[n].exchangeRate
    requires Mirrors(nationals[n].lines, reversal.lines)
    ensures NationalBook(nationals[n := nationals[n].(validated := false)] + [reversal])
  {
    var after := nationals[n := nationals[n].(validated := false)] + [reversal];
    assert forall i :: 0 <= i < |nationals| ==> after[i].reversalOf == nationals[i].reversalOf;
    forall k | 0 <= k < |after| ensures Reverses(after, k) {
      assert k < |nationals| ==> Reverses(nationals, k);
    }
    forall k | 0 <= k < |after| ensures after[k].validated <==> !IsReversed(after, k) {
      if k == n {
        assert after[|nationals|].reversalOf == Some(k);
      } else if k < |nationals| {
        if IsReversed(nationals, k) {
          var i :| 0 <= i < |nationals| && nationals[i].reversalOf == Some(k);
          assert after[i].reversalOf == Some(k);
        }
      } else {
        forall i | 0 <= i < |after| ensures after[i].reversalOf != Some(k) {
          assert i < |nationals| ==> Reverses(nationals, i);
        }
      }
    }
  }

  /** The operation, its reversal, the reversal of that, and so on. */
  ghost function Chain(nationals: seq<National>, n: Id): (chain: seq<Id>)
    requires NationalBook(nationals) && n < |nationals|
    ensures |chain| > 0 && chain[0] == n && forall k :: 0 <= k < |chain| ==> chain[k] < |nationals|
    decreases |nationals| - n
  {
    match ReversalOf(nationals, n)
    case None => [n]
    case Some(m) =>
      assert Reverses(nationals, m);
      [n] + Chain(nationals, m)
  }

  ghost function ChainEffect(nationals: seq<National>, chain: seq<Id>, w: Id): int
    requires forall k :: 0 <= k < |chain| ==> chain[k] < |nationals|
  {
    if chain == [] then 0
    else LineEffect(nationals[chain[0]].lines, w) + ChainEffect(nationals, chain[1..], w)
  }

  /** Each member reverses the one before it, and only the last one is VALIDATED. */
  ghost predicate Linear(nationals: seq<National>, chain: seq<Id>)
  {
    && (forall k :: 0 <= k < |chain| ==>
          chain[k] < |nationals| && (nationals[chain[k]].validated <==> k == |chain| - 1))
    && (forall j, k :: 0 <= j && k == j + 1 && k < |chain| ==> nationals[chain[k]].reversalOf == Some(chain[j]))
  }

  lemma {:induction false} ChainIsLinear(nationals: seq<National>, n: Id)
    requires NationalBook(nationals) && n < |nationals|
    ensures Linear(nationals, Chain(nationals, n))
    decreases |nationals| - n
  {
    var chain := Chain(nationals, n);
    match ReversalOf(nationals, n)
    case None =>
      assert !IsReversed(nationals, n);
    case Some(m) =>
      assert Reverses(nationals, m);
      ChainIsLinear(nationals, m);
      LinearPrepend(nationals, n, Chain(nationals, m));
      assert chain == [n] + Chain(nationals, m);
  }

  lemma LinearPrepend(nationals: seq<National>, n: Id, rest: seq<Id>)
    requires Linear(nationals, rest) && rest != [] && n < |nationals| && !nationals[n].validated
    requires nationals[rest[0]].reversalOf == Some(n)
    ensures Linear(nationals, [n] + rest)
  {
    var chain := [n] + rest;
    forall k | 0 <= k < |chain|
      ensures chain[k] < |nationals| && (nationals[chain[k]].validated <==> k == |chain| - 1)
    {
      if k > 0 {
        assert chain[k] == rest[k - 1];
      }
    }
    forall j, k | 0 <= j && k == j + 1 && k < |chain| ensures nationals[chain[k]].reversalOf == Some(chain[j]) {
      assert chain[k] == rest[j];
      if j > 0 {
        assert chain[j] == rest[j - 1];
      }
    }
  }

  lemma EffectPrepend(nationals: seq<National>, n: Id, rest: seq<Id>, w: Id)
    requires n < |nationals| && forall k :: 0 <= k < |rest| ==> rest[k] < |nationals|
    ensures ChainEffect(nationals, [n] + rest, w) == LineEffect(nationals[n].lines, w) + ChainEffect(nationals, rest, w)
  {
    assert ([n] + rest)[1..] == rest;
  }

  /** A reversal undoes what the member before it did, and the rest of the chain goes on from there. */
  lemma NetsPrepend(nationals: seq<National>, n: Id, rest: seq<Id>, w: Id)
    requires n < |nationals| && rest != [] && forall k :: 0 <= k < |rest| ==> rest[k] < |nationals|
    requires Mirrors(nationals[n].lines, nationals[rest[0]].lines)
    requires Nets(nationals, rest, w)
    ensures Nets(nationals, [n] + rest, w)
  {
    EffectPrepend(nationals, n, rest, w);
    MirrorNegates(nationals[n].lines, nationals[rest[0]].lines, w);
  }

  /** The chain as a whole does to wallet `w` what its first member did, or nothing. */
  ghost predicate Nets(nationals: seq<National>, chain: seq<Id>, w: Id) {
    && chain != [] && (forall k :: 0 <= k < |chain| ==> chain[k] < |nationals|)
    && ChainEffect(nationals, chain, w) == if |chain| % 2 == 1 then LineEffect(nationals[chain[0]].lines, w) else 0
  }

  lemma {:induction false} ChainNets(nationals: seq<National>, n: Id, w: Id)
    requires NationalBook(nationals) && n < |nationals|
    ensures Nets(nationals, Chain(nationals, n), w)
    decreases |nationals| - n
  {
    match ReversalOf(nationals, n)
    case None =>
      EffectPrepend(nationals, n, [], w);
      assert Chain(nationals, n) == [n] + [];
    case Some(m) =>
      assert Reverses(nationals, m);
      ChainNets(nationals, m, w);
      hide Nets;
      NetsPrepend(nationals, n, Chain(nationals, m), w);
  }

  /** A chain is linear, only its last member is VALIDATED, and on every wallet it nets to the
      original effect after an even number of cancellations (an odd number of members) and to
      nothing after an odd one. */
  lemma ReversalChain(nationals: seq<National>, n: Id, w: Id)
    requires NationalBook(nationals) && n < |nationals|
    ensures Linear(nationals, Chain(nationals, n)) && Nets(nationals, Chain(nationals, n), w)
  {
    ChainIsLinear(nationals, n);
    ChainNets(nationals, n, w);
  }

  // ---- rounding drift ----------------------------------------------------------------------

  /** Stored IN minus OUT of one currency. */
  function CentsOf(lines: seq<LineRequest>, c: Currency): int {
    if lines == [] then 0
    else (if lines[0].currency == c then Round(lines[0].amountIn) - Round(lines[0].amountOut) else 0)
         + CentsOf(lines[1..], c)
  }

  function CountOf(lines: seq<LineRequest>, c: Currency): nat {
    if lines == [] then 0 else (if lines[0].currency == c then 1 else 0) + CountOf(lines[1..], c)
  }

  lemma {:induction false} RoundingDrift(lines: seq<LineRequest>, c: Currency)
    requires forall i :: 0 <= i < |lines| ==> SingleDirection(lines[i])
    ensures var n := CountOf(lines, c) as real;
      -n / 2.0 <= CentsOf(lines, c) as real - 100.0 * TotalOf(lines, c) <= n / 2.0
  {
    if lines != [] {
      RoundingDrift(lines[1..], c);
      RoundIsNearest(lines[0].amountIn);
      RoundIsNearest(lines[0].amountOut);
      assert SingleDirection(lines[0]);
    }
  }

  lemma {:induction false} WholeCentsDoNotDrift(lines: seq<LineRequest>, c: Currency)
    requires forall i :: 0 <= i < |lines| ==>
      Decimal(Round(lines[i].amountIn)) == lines[i].amountIn && Decimal(Round(lines[i].amountOut)) == lines[i].amountOut
    ensures CentsOf(lines, c) as real == 100.0 * TotalOf(lines, c)
  {
    if lines != [] {
      WholeCentsDoNotDrift(lines[1..], c);
      assert lines[0].amountIn == Round(lines[0].amountIn) as real / 100.0;
      assert lines[0].amountOut == Round(lines[0].amountOut) as real / 100.0;
    }
  }

  lemma {:induction false} OtherCurrencyIsZero(lines: seq<LineRequest>, c: Currency)
    requires forall i :: 0 <= i < |lines| ==> lines[i].currency != c
    ensures TotalOf(lines, c) == 0.0 && CentsOf(lines, c) == 0 && CountOf(lines, c) == 0
  {
    if lines != [] {
      OtherCurrencyIsZero(lines[1..], c);
    }
  }

  lemma {:induction false} CountAtMostLength(lines: seq<LineRequest>, c: Currency)
    ensures CountOf(lines, c) <= |lines|
  {
    if lines != [] {
      CountAtMostLength(lines[1..], c);
    }
  }

  /** An accepted single-currency operation with n lines moves no currency by more than n/2 cents,
      and by nothing when its lines are whole cents. */
  lemma SingleCurrencyDrift(q: Request, c: Currency)
    requires ValidRequest(q) && |CurrenciesOf(q.lines)| == 1
    ensures -|q.lines| <= 2 * CentsOf(q.lines, c) <= |q.lines|
    ensures (forall i :: 0 <= i < |q.lines| ==>
               && Decimal(Round(q.lines[i].amountIn)) == q.lines[i].amountIn
               && Decimal(Round(q.lines[i].amountOut)) == q.lines[i].amountOut)
      ==> CentsOf(q.lines, c) == 0
  {
    if c !in CurrenciesOf(q.lines) {
      forall i | 0 <= i < |q.lines| ensures q.lines[i].currency != c {
        assert q.lines[i] in q.lines;
      }
      OtherCurrencyIsZero(q.lines, c);
    }
    RoundingDrift(q.lines, c);
    CountAtMostLength(q.lines, c);
    assert TotalOf(q.lines, c) == 0.0;
    if forall i :: 0 <= i < |q.lines| ==>
        && Decimal(Round(q.lines[i].amountIn)) == q.lines[i].amountIn
        && Decimal(Round(q.lines[i].amountOut)) == q.lines[i].amountOut
    {
      WholeCentsDoNotDrift(q.lines, c);
    }
  }

  /** The gap between the cents that came in and the stated rate times the cents that went out. */
  function ExchangeError(source: int, dest: int, rate: real): real {
    dest as real - rate * (-source) as real
  }

  function ExchangeBound(sources: nat, dests: nat, rate: real): real {
    1.0 + dests as real / 2.0 + rate * (sources as real / 2.0)
  }

  lemma ExchangeDrift(
    rate: real, cents: int, total: real, count: nat, cents': int, total': real, count': nat)
    requires rate > 0.0 && Converts(total, total', rate)
    requires -(count as real) / 2.0 <= cents as real - 100.0 * total <= count as real / 2.0
    requires -(count' as real) / 2.0 <= cents' as real - 100.0 * total' <= count' as real / 2.0
    ensures var bound := ExchangeBound(count, count', rate);
      -bound <= ExchangeError(cents, cents', rate) <= bound
  {
    var half, drift := count as real / 2.0, cents as real - 100.0 * total;
    assert rate * (half - drift) >= 0.0 && rate * (half + drift) >= 0.0;
    assert rate * drift == rate * cents as real - 100.0 * (total * rate);
    assert rate * (-cents) as real == -(rate * cents as real);
  }

  /** An accepted two-currency operation moves its two currencies, in cents, within
      1 + n_dest/2 + rate * n_source/2 of the stated rate. */
  lemma TwoCurrencyDrift(q: Request) returns (source: Currency, dest: Currency)
    requires ValidRequest(q) && |CurrenciesOf(q.lines)| == 2
    ensures source in CurrenciesOf(q.lines) && dest in CurrenciesOf(q.lines) && source != dest
    ensures Converts(TotalOf(q.lines, source), TotalOf(q.lines, dest), q.exchangeRate.value)
    ensures var bound := ExchangeBound(CountOf(q.lines, source), CountOf(q.lines, dest), q.exchangeRate.value);
      -bound <= ExchangeError(CentsOf(q.lines, source), CentsOf(q.lines, dest), q.exchangeRate.value) <= bound
  {
    source, dest :| source in CurrenciesOf(q.lines) && dest in CurrenciesOf(q.lines) && source != dest
      && Converts(TotalOf(q.lines, source), TotalOf(q.lines, dest), q.exchangeRate.value);
    RoundingDrift(q.lines, source);
    RoundingDrift(q.lines, dest);
    ExchangeDrift(
      q.exchangeRate.value, CentsOf(q.lines, source), TotalOf(q.lines, source), CountOf(q.lines, source),
      CentsOf(q.lines, dest), TotalOf(q.lines, dest), CountOf(q.lines, dest));
  }
}
