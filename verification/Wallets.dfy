/** Wallet balances and their movements (app/services/wallet_service.py). */
module Wallets {
  import opened Money
  import opened Tables

  function Signed(direction: Direction, cents: int): int {
    if direction.In? then cents else -cents
  }

  datatype Order = Order(wallet: Id, direction: Direction, amount: real)

  /** Nothing but balances differs. */
  predicate SameWallets(a: seq<Wallet>, b: seq<Wallet>) {
    |a| == |b| && forall w :: 0 <= w < |a| ==> a[w].(balance := b[w].balance) == b[w]
  }

  /** The till after a wallet is looked up and `apply_movement` is run on it. */
  function Moved(t: Till, o: Order, source: Source): (r: Result<Till>)
    ensures r.Ok? ==> SameWallets(t.wallets, r.value.wallets)
  {
    if o.wallet >= |t.wallets| then Err(NotFound) else
    var wallet := t.wallets[o.wallet];
    var cents := Round(o.amount);
    if o.amount <= 0.0 then Err(BadAmount)
    else if !wallet.active then Err(Conflict)
    else if o.direction.Out? && wallet.balance < cents then Err(InsufficientBalance)
    else
      var after := wallet.balance + Signed(o.direction, cents);
      Ok(Till(
        t.wallets[o.wallet := wallet.(balance := after)],
        t.moves + [WalletMove(o.wallet, o.direction, cents, wallet.currency, wallet.balance, after, source)]))
  }

  /** The till after one movement per order, in order, for a single source document. */
  function MovedAll(t: Till, orders: seq<Order>, source: Source): (r: Result<Till>)
    ensures r.Ok? ==> SameWallets(t.wallets, r.value.wallets) && |r.value.moves| == |t.moves| + |orders|
    decreases |orders|
  {
    if orders == [] then Ok(t)
    else
      var first :- Moved(t, orders[0], source);
      MovedAll(first, orders[1..], source)
  }

  function WalletCreated(t: Till, company: Company, code: string, currency: Currency, initial: real): Result<Till> {
    if initial < 0.0 then Err(Invalid)
    else if exists w :: 0 <= w < |t.wallets| && t.wallets[w].company == company && t.wallets[w].code == code
    then Err(Conflict)
    else
      var grown := Till(t.wallets + [Wallet(company, code, currency, true, 0)], t.moves);
      if initial > 0.0
      then Moved(grown, Order(|t.wallets|, In, initial), WalletInitial(|t.wallets|))
      else Ok(grown)
  }

  function StatusSet(t: Till, company: Company, w: Id, active: bool): Result<Till> {
    if w >= |t.wallets| || t.wallets[w].company != company then Err(NotFound)
    else Ok(t.(wallets := t.wallets[w := t.wallets[w].(active := active)]))
  }

  lemma MissingWallet(t: Till, o: Order, source: Source)
    ensures o.wallet >= |t.wallets| ==> Moved(t, o, source) == Err(NotFound)
  {
  }

  lemma MovedAppends(t: Till, o: Order, source: Source)
    ensures Moved(t, o, source).Ok? ==>
      var after := Moved(t, o, source).value.moves; |after| == |t.moves| + 1 && after[..|t.moves|] == t.moves
  {
  }

  // ---- services ----------------------------------------------------------------------------

  /** Changes the session's view only; the caller commits or rolls back. */
  method ApplyMovement(session: Session, o: Order, source: Source) returns (r: Result<()>)
    requires o.wallet < |session.view.till.wallets|
    modifies session
    ensures session.db == old(session.db)
    ensures match Moved(old(session.view.till), o, source)
            case Ok(t) => r.Ok? && session.view == old(session.view).(till := t)
            case Err(e) => r == Err(e) && session.view == old(session.view)
  {
    if o.amount <= 0.0 {
      return Err(BadAmount);
    }
    var cents := Round(o.amount);
    var till := session.view.till;
    var wallet := till.wallets[o.wallet];
    if !wallet.active {
      return Err(Conflict);
    }
    var before := wallet.balance;
    if o.direction.Out? {
      if wallet.balance < cents {
        return Err(InsufficientBalance);
      }
      wallet := wallet.(balance := wallet.balance - cents);
    } else {
      wallet := wallet.(balance := wallet.balance + cents);
    }
    var move := WalletMove(o.wallet, o.direction, cents, wallet.currency, before, wallet.balance, source);
    session.view := session.view.(
      till := Till(till.wallets[o.wallet := wallet], till.moves + [move]));
    return Ok(());
  }

  method CreateWallet(session: Session, company: Company, code: string, currency: Currency, initial: real)
    returns (r: Result<()>)
    requires session.Clean()
    modifies session
    ensures session.Clean()
    ensures match WalletCreated(old(session.db.till), company, code, currency, initial)
            case Ok(t) => r.Ok? && session.db == old(session.db).(till := t)
            case Err(e) => r == Err(e) && session.db == old(session.db)
  {
    var till := session.view.till;
    if initial < 0.0 {
      return Err(Invalid);
    }
    if exists w :: 0 <= w < |till.wallets| && till.wallets[w].company == company && till.wallets[w].code == code {
      return Err(Conflict);
    }
    var id := |till.wallets|;
    session.view := session.view.(
      till := till.(wallets := till.wallets + [Wallet(company, code, currency, true, 0)]));
    if initial > 0.0 {
      r := ApplyMovement(session, Order(id, In, initial), WalletInitial(id));
      assert r.Ok?;  // an IN movement of a positive amount on an active wallet
    }
    session.Commit();
    return Ok(());
  }

  method SetWalletStatus(session: Session, company: Company, w: Id, active: bool) returns (r: Result<()>)
    requires session.Clean()
    modifies session
    ensures session.Clean()
    ensures match StatusSet(old(session.db.till), company, w, active)
            case Ok(t) => r.Ok? && session.db == old(session.db).(till := t)
            case Err(e) => r == Err(e) && session.db == old(session.db)
  {
    var wallets := session.view.till.wallets;
    if w >= |wallets| || wallets[w].company != company {
      return Err(NotFound);
    }
    session.view := session.view.(
      till := session.view.till.(wallets := wallets[w := wallets[w].(active := active)]));
    session.Commit();
    return Ok(());
  }

  // ---- the wallet ledger -------------------------------------------------------------------

  /** IN minus OUT over the movements of one wallet. */
  function Net(moves: seq<WalletMove>, w: Id): int {
    if moves == [] then 0
    else
      var m := moves[|moves| - 1];
      Net(moves[..|moves| - 1], w) + if m.wallet == w then Signed(m.direction, m.amount) else 0
  }

  lemma NetAppend(moves: seq<WalletMove>, m: WalletMove, w: Id)
    ensures Net(moves + [m], w) == Net(moves, w) + if m.wallet == w then Signed(m.direction, m.amount) else 0
  {
    assert (moves + [m])[..|moves|] == moves;
  }

  /** A movement starts from what the earlier movements of its wallet add up to, and ends, never
      below zero, at what they add up to with it. */
  ghost predicate Chained(t: Till, i: nat)
    requires i < |t.moves|
  {
    var m := t.moves[i];
    && m.wallet < |t.wallets|
    && m.currency == t.wallets[m.wallet].currency
    && m.amount >= 0
    && m.before == Net(t.moves[..i], m.wallet)
    && m.after == m.before + Signed(m.direction, m.amount)
    && m.after >= 0
  }

  ghost predicate WalletLedger(t: Till) {
    && (forall i :: 0 <= i < |t.moves| ==> Chained(t, i))
    && (forall w :: 0 <= w < |t.wallets| ==> t.wallets[w].balance == Net(t.moves, w) >= 0)
  }

  lemma MovedKeepsLedger(t: Till, o: Order, source: Source)
    requires WalletLedger(t) && Moved(t, o, source).Ok?
    ensures WalletLedger(Moved(t, o, source).value)
  {
    var after := Moved(t, o, source).value;
    var n := |t.moves|;
    var m := after.moves[n];
    assert m.amount >= 0 by { RoundMonotone(0.0, o.amount); }
    forall i | 0 <= i < |after.moves| ensures Chained(after, i) {
      assert after.moves[..i] == t.moves[..i];
      if i < n {
        assert Chained(t, i);
      } else {
        assert t.moves[..n] == t.moves;
      }
    }
    forall w | 0 <= w < |after.wallets| ensures after.wallets[w].balance == Net(after.moves, w) >= 0 {
      NetAppend(t.moves, m, w);
    }
  }

  lemma {:induction false} MovedAllKeepsLedger(t: Till, orders: seq<Order>, source: Source)
    requires WalletLedger(t) && MovedAll(t, orders, source).Ok?
    ensures WalletLedger(MovedAll(t, orders, source).value)
    decreases |orders|
  {
    if orders != [] {
      MovedKeepsLedger(t, orders[0], source);
      MovedAllKeepsLedger(Moved(t, orders[0], source).value, orders[1..], source);
    }
  }

  lemma {:induction false} NetUnmoved(moves: seq<WalletMove>, w: Id)
    requires forall i :: 0 <= i < |moves| ==> moves[i].wallet != w
    ensures Net(moves, w) == 0
  {
    if moves != [] {
      NetUnmoved(moves[..|moves| - 1], w);
    }
  }

  lemma WalletCreatedKeepsLedger(t: Till, company: Company, code: string, currency: Currency, initial: real)
    requires WalletLedger(t) && WalletCreated(t, company, code, currency, initial).Ok?
    ensures WalletLedger(WalletCreated(t, company, code, currency, initial).value)
  {
    var id := |t.wallets|;
    var grown := Till(t.wallets + [Wallet(company, code, currency, true, 0)], t.moves);
    forall i | 0 <= i < |t.moves| ensures Chained(grown, i) && t.moves[i].wallet != id {
      assert Chained(t, i);
    }
    NetUnmoved(t.moves, id);
    if initial > 0.0 {
      MovedKeepsLedger(grown, Order(id, In, initial), WalletInitial(id));
    }
  }

  lemma StatusSetKeepsLedger(t: Till, company: Company, w: Id, active: bool)
    requires WalletLedger(t) && StatusSet(t, company, w, active).Ok?
    ensures WalletLedger(StatusSet(t, company, w, active).value)
  {
    var after := StatusSet(t, company, w, active).value;
    forall i | 0 <= i < |t.moves| ensures Chained(after, i) {
      assert Chained(t, i);
    }
  }

  /** The wallet's last movement among the first `n`. */
  function LastMove(moves: seq<WalletMove>, w: Id, n: nat): (r: Option<nat>)
    requires n <= |moves|
    ensures r.Some? ==> r.value < n && moves[r.value].wallet == w
    ensures forall k :: 0 <= k < n && (r.Some? ==> r.value < k) ==> moves[k].wallet != w
  {
    if n == 0 then None
    else if moves[n - 1].wallet == w then Some(n - 1)
    else LastMove(moves, w, n - 1)
  }

  /** What the first `n` movements leave on a wallet: the `balance_after` of its last one. */
  function LeftBy(moves: seq<WalletMove>, w: Id, n: nat): int
    requires n <= |moves|
  {
    match LastMove(moves, w, n)
    case Some(i) => moves[i].after
    case None => 0
  }

  lemma {:induction false} NetIsLeft(t: Till, w: Id, n: nat)
    requires n <= |t.moves| && forall i :: 0 <= i < |t.moves| ==> Chained(t, i)
    ensures Net(t.moves[..n], w) == LeftBy(t.moves, w, n)
  {
    if n > 0 {
      NetIsLeft(t, w, n - 1);
      assert Chained(t, n - 1);
      assert t.moves[..n] == t.moves[..n - 1] + [t.moves[n - 1]];
      NetAppend(t.moves[..n - 1], t.moves[n - 1], w);
    }
  }

  /** Every movement starts from the `balance_after` of its wallet's previous one, the first from zero. */
  lemma MovementsChain(t: Till, j: nat)
    requires WalletLedger(t) && j < |t.moves|
    ensures var m := t.moves[j];
      && m.before == LeftBy(t.moves, m.wallet, j)
      && m.after == m.before + Signed(m.direction, m.amount)
      && m.before >= 0 && m.after >= 0 && m.amount >= 0
  {
    assert Chained(t, j);
    var m := t.moves[j];
    NetIsLeft(t, m.wallet, j);
    match LastMove(t.moves, m.wallet, j)
    case Some(i) => assert Chained(t, i);
    case None =>
  }

  /** A wallet holds what its last movement left. */
  lemma BalanceIsLeft(t: Till, w: Id)
    requires WalletLedger(t) && w < |t.wallets|
    ensures t.wallets[w].balance == LeftBy(t.moves, w, |t.moves|)
  {
    NetIsLeft(t, w, |t.moves|);
    assert t.moves[..|t.moves|] == t.moves;
  }

  // ---- what a batch of orders does ---------------------------------------------------------

  function Effect(orders: seq<Order>, w: Id): int {
    if orders == [] then 0
    else (if orders[0].wallet == w then Signed(orders[0].direction, Round(orders[0].amount)) else 0)
         + Effect(orders[1..], w)
  }

  /** The i-th movement of a batch records the i-th order. */
  ghost predicate Recorded(t: Till, orders: seq<Order>, source: Source, after: Till, i: nat)
    requires i < |orders| && |after.moves| == |t.moves| + |orders|
  {
    var m := after.moves[|t.moves| + i];
    && m.wallet == orders[i].wallet < |t.wallets|
    && m.direction == orders[i].direction
    && m.amount == Round(orders[i].amount)
    && m.currency == t.wallets[m.wallet].currency
    && m.source == source
    && orders[i].amount > 0.0
    && t.wallets[m.wallet].active
    && m.after == m.before + Signed(m.direction, m.amount)
  }

  /** A batch that goes through moves every wallet by exactly its orders, and appends one movement
      per order. */
  lemma {:induction false} MovedAllEffect(t: Till, orders: seq<Order>, source: Source)
    requires MovedAll(t, orders, source).Ok?
    ensures var after := MovedAll(t, orders, source).value;
      && (forall w :: 0 <= w < |t.wallets| ==> after.wallets[w].balance == t.wallets[w].balance + Effect(orders, w))
      && |after.moves| == |t.moves| + |orders|
      && after.moves[..|t.moves|] == t.moves
      && (forall i :: 0 <= i < |orders| ==> Recorded(t, orders, source, after, i))
    decreases |orders|
  {
    if orders != [] {
      var first := Moved(t, orders[0], source).value;
      MovedAllEffect(first, orders[1..], source);
      var after := MovedAll(t, orders, source).value;
      assert after.moves[..|t.moves| + 1] == first.moves;
      assert after.moves[..|t.moves|] == first.moves[..|t.moves|] == t.moves;
      forall i | 0 <= i < |orders| ensures Recorded(t, orders, source, after, i) {
        if i == 0 {
          assert after.moves[|t.moves|] == first.moves[|t.moves|];
        } else {
          assert Recorded(first, orders[1..], source, after, i - 1);
          var w := orders[i].wallet;
          assert first.wallets[w] == t.wallets[w].(balance := first.wallets[w].balance);
        }
      }
    }
  }

  /** A wallet is created exactly for an initial amount that is not negative and a code the company does
      not use yet; it is active and holds the initial amount, to the nearest cent. */
  lemma CreatedWalletHoldsInitial(t: Till, company: Company, code: string, currency: Currency, initial: real)
    ensures WalletCreated(t, company, code, currency, initial).Ok? <==>
      && initial >= 0.0
      && forall w :: 0 <= w < |t.wallets| && t.wallets[w].company == company ==> t.wallets[w].code != code
    ensures WalletCreated(t, company, code, currency, initial).Ok? ==>
      var wallets := WalletCreated(t, company, code, currency, initial).value.wallets;
      && |wallets| == |t.wallets| + 1 && wallets[..|t.wallets|] == t.wallets
      && var wallet := wallets[|t.wallets|];
         && wallet == Wallet(company, code, currency, true, wallet.balance) && Nearest(wallet.balance, initial)
  {
    RoundIsNearest(initial);
  }

  /** A wallet is switched by its company, and nothing else changes. */
  lemma SwitchedWallet(t: Till, company: Company, w: Id, active: bool)
    ensures StatusSet(t, company, w, active).Ok? <==> w < |t.wallets| && t.wallets[w].company == company
    ensures StatusSet(t, company, w, active).Ok? ==>
      var after := StatusSet(t, company, w, active).value;
      && after.moves == t.moves && |after.wallets| == |t.wallets|
      && forall v :: 0 <= v < |t.wallets| ==>
           after.wallets[v] == t.wallets[v].(active := if v == w then active else t.wallets[v].active)
  {
  }
}
