/** Private sending rates: one active row per slot, and the lookup made when a transfer is created
    (app/services/private_rate_service.py, app/repositories/private_rate_repository.py,
    app/services/transfer_service.py). */
module PrivateRates {
  import opened Money
  import opened Tables

  datatype RateRequest = RateRequest(
    collab: Option<Id>, country: Option<string>, mode: Option<SendMode>, currency: Currency,
    target: Option<Currency>, rate: real)

  function ResolvedTarget(p: Pacts, q: RateRequest): Result<Option<Currency>> {
    if q.target.Some? then Ok(q.target)
    else if q.collab.Some? then
      if q.collab.value < |p.collabs| then Ok(Some(p.collabs[q.collab.value].currency)) else Err(NotFound)
    else Ok(None)
  }

  /** `get_active_by_scope`. */
  function FindActive(rates: seq<PrivateRate>, slot: Slot): (r: Option<nat>)
    ensures r.Some? ==> r.value < |rates| && rates[r.value].active && rates[r.value].slot == slot
    ensures r.None? ==> forall i :: 0 <= i < |rates| ==> !(rates[i].active && rates[i].slot == slot)
  {
    if rates == [] then None
    else if rates[0].active && rates[0].slot == slot then Some(0)
    else
      match FindActive(rates[1..], slot)
      case None =>
        assert forall i :: 0 < i < |rates| ==> rates[i] == rates[1..][i - 1];
        None
      case Some(i) => Some(i + 1)
  }

  function Deactivated(rates: seq<PrivateRate>, r: Option<nat>): (after: seq<PrivateRate>)
    requires r.Some? ==> r.value < |rates|
    ensures |after| == |rates|
  {
    if r.None? then rates else rates[r.value := rates[r.value].(active := false)]
  }

  predicate UnknownCollab(p: Pacts, q: RateRequest) {
    q.collab.Some? && q.collab.value >= |p.collabs|
  }

  /** An unknown collaboration goes unnoticed when a target is given, until the row is flushed. */
  function RateSet(l: Ledger, company: Company, q: RateRequest): Result<Ledger> {
    if q.rate <= 0.0 then Err(Invalid)
    else
      var target :- ResolvedTarget(l.pacts, q);
      var slot := Slot(company, q.collab, q.currency, target, q.mode);
      if UnknownCollab(l.pacts, q) then Err(BrokenReference)
      else Ok(l.(tariffs := Deactivated(l.tariffs, FindActive(l.tariffs, slot))
                            + [PrivateRate(slot, q.country, StoredRate(q.rate), true)]))
  }

  function ActiveStatusSet(l: Ledger, company: Company, id: Id, active: bool): Result<Ledger> {
    if id >= |l.tariffs| || l.tariffs[id].slot.company != company then Err(NotFound)
    else
      var others := if active then Deactivated(l.tariffs, FindActive(l.tariffs, l.tariffs[id].slot)) else l.tariffs;
      Ok(l.(tariffs := others[id := l.tariffs[id].(active := active)]))
  }

  method SetRate(session: Session, company: Company, q: RateRequest) returns (r: Result<()>)
    requires session.Clean()
    modifies session
    ensures session.Clean()
    ensures Settled(old(session.db), RateSet(old(session.db), company, q), session.db, r)
  {
    if q.rate <= 0.0 {
      return Err(Invalid);
    }
    var resolved := ResolvedTarget(session.view.pacts, q);
    if resolved.Err? {
      return Err(resolved.error);
    }
    var slot := Slot(company, q.collab, q.currency, resolved.value, q.mode);
    var rates := session.view.tariffs;
    var existing := FindActive(rates, slot);
    if existing.Some? {
      rates := rates[existing.value := rates[existing.value].(active := false)];
    }
    rates := rates + [PrivateRate(slot, q.country, StoredRate(q.rate), true)];
    session.view := session.view.(tariffs := rates);
    if UnknownCollab(session.view.pacts, q) {
      session.Rollback();
      return Err(BrokenReference);
    }
    session.Commit();
    return Ok(());
  }

  method SetActiveStatus(session: Session, company: Company, id: Id, active: bool) returns (r: Result<()>)
    requires session.Clean()
    modifies session
    ensures session.Clean()
    ensures Settled(old(session.db), ActiveStatusSet(old(session.db), company, id, active), session.db, r)
  {
    var rates := session.view.tariffs;
    if id >= |rates| || rates[id].slot.company != company {
      return Err(NotFound);
    }
    if active {
      var current := FindActive(rates, rates[id].slot);
      if current.Some? && current.value != id {
        rates := rates[current.value := rates[current.value].(active := false)];
      }
      rates := rates[id := rates[id].(active := true)];
    } else {
      rates := rates[id := rates[id].(active := false)];
    }
    session.view := session.view.(tariffs := rates);
    session.Commit();
    return Ok(());
  }

  // ---- at most one active row per slot -----------------------------------------------------

  ghost predicate OneActive(rates: seq<PrivateRate>) {
    forall i, j :: 0 <= i < j < |rates| && rates[i].active && rates[j].active ==> rates[i].slot != rates[j].slot
  }

  lemma RateSetKeepsOneActive(l: Ledger, company: Company, q: RateRequest)
    requires OneActive(l.tariffs) && RateSet(l, company, q).Ok?
    ensures OneActive(RateSet(l, company, q).value.tariffs)
  {
  }

  lemma ActiveStatusSetKeepsOneActive(l: Ledger, company: Company, id: Id, active: bool)
    requires OneActive(l.tariffs) && ActiveStatusSet(l, company, id, active).Ok?
    ensures OneActive(ActiveStatusSet(l, company, id, active).value.tariffs)
  {
  }

  /** The private rates as a map from slots. */
  function RateAt(rates: seq<PrivateRate>, slot: Slot): Option<real> {
    match FindActive(rates, slot)
    case Some(i) => Some(rates[i].rate)
    case None => None
  }

  lemma ActiveRowIsFound(rates: seq<PrivateRate>, i: nat)
    requires OneActive(rates) && i < |rates| && rates[i].active
    ensures FindActive(rates, rates[i].slot) == Some(i)
  {
    var found := FindActive(rates, rates[i].slot);
    assert found.Some?;
  }

  /** Two tables with the same active rows in a slot give the same rate for it. */
  lemma SameRowsSameRate(a: seq<PrivateRate>, b: seq<PrivateRate>, slot: Slot)
    requires OneActive(a) && OneActive(b) && |a| <= |b|
    requires forall i :: 0 <= i < |a| && (a[i].slot == slot || b[i].slot == slot) ==> a[i] == b[i]
    requires forall i :: |a| <= i < |b| ==> b[i].slot != slot
    ensures RateAt(a, slot) == RateAt(b, slot)
  {
    var i := FindActive(a, slot);
    if i.Some? {
      ActiveRowIsFound(b, i.value);
    }
  }

  /** Setting a rate updates the map at its slot and nowhere else. */
  lemma SettingUpdatesOneSlot(l: Ledger, company: Company, q: RateRequest, s: Slot)
    requires OneActive(l.tariffs) && RateSet(l, company, q).Ok?
    ensures ResolvedTarget(l.pacts, q).Ok?
    ensures var slot := Slot(company, q.collab, q.currency, ResolvedTarget(l.pacts, q).value, q.mode);
      RateAt(RateSet(l, company, q).value.tariffs, s)
      == if s == slot then Some(StoredRate(q.rate)) else RateAt(l.tariffs, s)
  {
    var after := RateSet(l, company, q).value.tariffs;
    RateSetKeepsOneActive(l, company, q);
    if s == after[|l.tariffs|].slot {
      ActiveRowIsFound(after, |l.tariffs|);
    } else {
      SameRowsSameRate(l.tariffs, after, s);
    }
  }

  /** Switching a row on puts its rate at its slot, switching the active row off empties the slot, and
      no other slot changes. */
  lemma SwitchingUpdatesOneSlot(l: Ledger, company: Company, id: Id, active: bool, s: Slot)
    requires OneActive(l.tariffs) && ActiveStatusSet(l, company, id, active).Ok?
    ensures var row := l.tariffs[id];
      RateAt(ActiveStatusSet(l, company, id, active).value.tariffs, s)
      == if s != row.slot then RateAt(l.tariffs, s)
         else if active then Some(row.rate)
         else if row.active then None
         else RateAt(l.tariffs, s)
  {
    var row, after := l.tariffs[id], ActiveStatusSet(l, company, id, active).value.tariffs;
    ActiveStatusSetKeepsOneActive(l, company, id, active);
    if s != row.slot || (!active && !row.active) {
      if s == row.slot {
        assert after == l.tariffs;
      }
      SameRowsSameRate(l.tariffs, after, s);
    } else if active {
      ActiveRowIsFound(after, id);
    } else {
      ActiveRowIsFound(l.tariffs, id);
    }
  }

  // ---- the lookup --------------------------------------------------------------------------

  /** `list_active_for_pair`, in whatever order the rows come. */
  function ActiveForPair(
    rates: seq<PrivateRate>, company: Company, currency: Currency, target: Currency): seq<PrivateRate>
  {
    if rates == [] then []
    else
      var r := rates[0];
      (if r.active && r.slot.company == company && r.slot.currency == currency
          && (r.slot.target == Some(target) || r.slot.target.None?) then [r] else [])
      + ActiveForPair(rates[1..], company, currency, target)
  }

  /** The rate of the first candidate of a scope. */
  function FirstOf(
    candidates: seq<PrivateRate>, collab: Option<Id>, mode: Option<SendMode>, target: Option<Currency>): Option<real>
  {
    if candidates == [] then None
    else
      var slot := candidates[0].slot;
      if slot.collab == collab && slot.mode == mode && slot.target == target then Some(candidates[0].rate)
      else FirstOf(candidates[1..], collab, mode, target)
  }

  /** The six slots a transfer may use, most specific first. */
  function Precedence(
    company: Company, collab: Id, mode: SendMode, currency: Currency, target: Currency): (r: seq<Slot>)
    ensures |r| == 6
  {
    [ Slot(company, Some(collab), currency, Some(target), Some(mode)),
      Slot(company, Some(collab), currency, None, Some(mode)),
      Slot(company, Some(collab), currency, Some(target), None),
      Slot(company, Some(collab), currency, None, None),
      Slot(company, None, currency, Some(target), None),
      Slot(company, None, currency, None, None) ]
  }

  /** The precedence map: the rate of the first slot that has an active row. */
  function Lookup(rates: seq<PrivateRate>, slots: seq<Slot>): Option<real> {
    if slots == [] then None
    else
      match FindActive(rates, slots[0])
      case Some(i) => Some(rates[i].rate)
      case None => Lookup(rates, slots[1..])
  }

  lemma {:induction false} FirstOfIsActiveSlot(
    rates: seq<PrivateRate>, company: Company, currency: Currency, pair: Currency, slot: Slot)
    requires slot.company == company && slot.currency == currency
    requires slot.target == Some(pair) || slot.target.None?
    ensures FirstOf(ActiveForPair(rates, company, currency, pair), slot.collab, slot.mode, slot.target)
         == RateAt(rates, slot)
  {
    if rates != [] {
      FirstOfIsActiveSlot(rates[1..], company, currency, pair, slot);
      var rest := ActiveForPair(rates[1..], company, currency, pair);
      assert ([rates[0]] + rest)[1..] == rest;
      assert [] + rest == rest;
    }
  }

  /** The nested search of `create_transfer` refines the precedence map. */
  method FindRate(
    rates: seq<PrivateRate>, company: Company, collab: Id, mode: SendMode, currency: Currency, target: Currency)
    returns (found: Option<real>)
    ensures found == Lookup(rates, Precedence(company, collab, mode, currency, target))
  {
    hide ActiveForPair, FindActive;
    var candidates := ActiveForPair(rates, company, currency, target);
    var scopes := [(Some(collab), Some(mode)), (Some(collab), None), (None, None)];
    var targets := [Some(target), None];
    ghost var slots := Precedence(company, collab, mode, currency, target);
    found := None;
    for i := 0 to 3
      invariant found.None?
      invariant Lookup(rates, slots) == Lookup(rates, slots[2 * i..])
    {
      for j := 0 to 2
        invariant found.None?
        invariant Lookup(rates, slots) == Lookup(rates, slots[2 * i + j..])
      {
        var k := 2 * i + j;
        assert slots[k] == Slot(company, scopes[i].0, currency, targets[j], scopes[i].1);
        assert slots[k..][0] == slots[k] && slots[k..][1..] == slots[k + 1..];
        FirstOfIsActiveSlot(rates, company, currency, target, slots[k]);
        for c := 0 to |candidates|
          invariant found.None?
          invariant FirstOf(candidates, scopes[i].0, scopes[i].1, targets[j])
                 == FirstOf(candidates[c..], scopes[i].0, scopes[i].1, targets[j])
        {
          assert candidates[c..][0] == candidates[c] && candidates[c..][1..] == candidates[c + 1..];
          var r := candidates[c];
          if r.slot.collab == scopes[i].0 && r.slot.mode == scopes[i].1 && r.slot.target == targets[j] {
            found := Some(r.rate);
            break;
          }
        }
        if found.Some? {
          return;
        }
      }
    }
  }

  ghost predicate Occupied(rates: seq<PrivateRate>, slot: Slot) {
    exists i :: 0 <= i < |rates| && rates[i].active && rates[i].slot == slot
  }

  /** The lookup returns the rate of the one active row of the first occupied slot, and fails
      exactly when every slot is empty. */
  lemma {:induction false} LookupTakesFirstOccupied(rates: seq<PrivateRate>, slots: seq<Slot>)
    requires OneActive(rates)
    ensures Lookup(rates, slots).None? <==> forall k :: 0 <= k < |slots| ==> !Occupied(rates, slots[k])
    ensures forall k, i ::
      && 0 <= k < |slots| && 0 <= i < |rates| && rates[i].active && rates[i].slot == slots[k]
      && (forall j :: 0 <= j < k ==> !Occupied(rates, slots[j]))
      ==> Lookup(rates, slots) == Some(rates[i].rate)
    decreases |slots|
  {
    if slots != [] {
      LookupTakesFirstOccupied(rates, slots[1..]);
      assert Occupied(rates, slots[0]) <==> FindActive(rates, slots[0]).Some?;
      assert forall k :: 0 < k < |slots| ==> slots[k] == slots[1..][k - 1];
      if FindActive(rates, slots[0]).Some? {
      } else {
        forall k, i |
          && 0 <= k < |slots| && 0 <= i < |rates| && rates[i].active && rates[i].slot == slots[k]
          && (forall j :: 0 <= j < k ==> !Occupied(rates, slots[j]))
          ensures Lookup(rates, slots) == Some(rates[i].rate)
        {
          assert k > 0;
          assert forall j :: 0 <= j < k - 1 ==> slots[1..][j] == slots[j + 1];
        }
      }
    }
  }

  /** The answer does not depend on the order in which the database returns the rows. */
  lemma {:induction false} LookupIgnoresRowOrder(a: seq<PrivateRate>, b: seq<PrivateRate>, slots: seq<Slot>)
    requires OneActive(a) && multiset(a) == multiset(b)
    ensures Lookup(a, slots) == Lookup(b, slots)
    decreases |slots|
  {
    if slots != [] {
      LookupIgnoresRowOrder(a, b, slots[1..]);
      var i, j := FindActive(a, slots[0]), FindActive(b, slots[0]);
      assert forall r :: r in a <==> r in multiset(a);
      assert forall r :: r in b <==> r in multiset(b);
      if i.Some? {
        assert a[i.value] in b;
      }
      if j.Some? {
        assert b[j.value] in a;
      }
    }
  }

  // ---- which row wins, read from its columns -----------------------------------------------

  /** An active row for the company and the source currency may serve a transfer if everything it names
      is the transfer's; a row that names a send mode has to name the collaboration as well. */
  predicate Applies(
    row: PrivateRate, company: Company, collab: Id, mode: SendMode, currency: Currency, target: Currency)
  {
    && row.active && row.slot.company == company && row.slot.currency == currency
    && (row.slot.collab.Some? ==> row.slot.collab.value == collab)
    && (row.slot.mode.Some? ==> row.slot.mode.value == mode && row.slot.collab.Some?)
    && (row.slot.target.Some? ==> row.slot.target.value == target)
  }

  /** Naming the mode counts most, then naming the collaboration, then naming the target. */
  predicate Outranks(a: Slot, b: Slot) {
    if a.mode.Some? != b.mode.Some? then a.mode.Some?
    else if a.collab.Some? != b.collab.Some? then a.collab.Some?
    else a.target.Some? && b.target.None?
  }

  lemma SlotsOfApplicable(
    row: PrivateRate, company: Company, collab: Id, mode: SendMode, currency: Currency, target: Currency)
    ensures Applies(row, company, collab, mode, currency, target)
      <==> row.active && row.slot in Precedence(company, collab, mode, currency, target)
  {
    var slots := Precedence(company, collab, mode, currency, target);
    var scope := if row.slot.mode.Some? then 0 else if row.slot.collab.Some? then 2 else 4;
    var k := if row.slot.target.Some? then scope else scope + 1;
    assert Applies(row, company, collab, mode, currency, target) ==> row.slot == slots[k];
  }

  lemma EarlierSlotsOutrank(
    company: Company, collab: Id, mode: SendMode, currency: Currency, target: Currency, j: nat, k: nat)
    requires j < k < 6
    ensures var slots := Precedence(company, collab, mode, currency, target); Outranks(slots[j], slots[k])
  {
  }

  lemma {:induction false} FirstOccupied(rates: seq<PrivateRate>, slots: seq<Slot>) returns (k: nat, i: Id)
    requires Lookup(rates, slots).Some?
    ensures k < |slots| && i < |rates| && rates[i].active && rates[i].slot == slots[k]
    ensures Lookup(rates, slots) == Some(rates[i].rate)
    ensures forall j :: 0 <= j < k ==> !Occupied(rates, slots[j])
    decreases |slots|
  {
    var found := FindActive(rates, slots[0]);
    if found.Some? {
      k, i := 0, found.value;
    } else {
      k, i := FirstOccupied(rates, slots[1..]);
      forall j | 0 <= j < k + 1 ensures !Occupied(rates, slots[j]) {
        if j > 0 {
          assert slots[1..][j - 1] == slots[j];
        }
      }
      k := k + 1;
    }
  }

  /** The search finds the rate of the one row that outranks every other row that applies. */
  lemma MostSpecificRowWins(
    rates: seq<PrivateRate>, company: Company, collab: Id, mode: SendMode, currency: Currency, target: Currency)
    returns (i: Id)
    requires OneActive(rates)
    requires Lookup(rates, Precedence(company, collab, mode, currency, target)).Some?
    ensures i < |rates| && Applies(rates[i], company, collab, mode, currency, target)
    ensures forall j :: 0 <= j < |rates| && j != i && Applies(rates[j], company, collab, mode, currency, target) ==>
      Outranks(rates[i].slot, rates[j].slot)
    ensures Lookup(rates, Precedence(company, collab, mode, currency, target)) == Some(rates[i].rate)
  {
    var slots := Precedence(company, collab, mode, currency, target);
    hide Precedence, Applies, Outranks, Lookup;
    var k;
    k, i := FirstOccupied(rates, slots);
    SlotsOfApplicable(rates[i], company, collab, mode, currency, target);
    forall j | 0 <= j < |rates| && j != i && Applies(rates[j], company, collab, mode, currency, target)
      ensures Outranks(rates[i].slot, rates[j].slot)
    {
      SlotsOfApplicable(rates[j], company, collab, mode, currency, target);
      var n :| 0 <= n < |slots| && slots[n] == rates[j].slot;
      assert Occupied(rates, slots[n]);
      EarlierSlotsOutrank(company, collab, mode, currency, target, k, n);
    }
  }

  /** It finds nothing exactly when no row applies. */
  lemma NoRateIffNoneApplies(
    rates: seq<PrivateRate>, company: Company, collab: Id, mode: SendMode, currency: Currency, target: Currency)
    requires OneActive(rates)
    ensures Lookup(rates, Precedence(company, collab, mode, currency, target)).None? <==>
      forall i :: 0 <= i < |rates| ==> !Applies(rates[i], company, collab, mode, currency, target)
  {
    var slots := Precedence(company, collab, mode, currency, target);
    hide Precedence, Applies, Lookup;
    LookupTakesFirstOccupied(rates, slots);
    forall i | 0 <= i < |rates|
      ensures Applies(rates[i], company, collab, mode, currency, target) <==> rates[i].active && rates[i].slot in slots
    {
      SlotsOfApplicable(rates[i], company, collab, mode, currency, target);
    }
    if i :| 0 <= i < |rates| && rates[i].active && rates[i].slot in slots {
      var k :| 0 <= k < |slots| && slots[k] == rates[i].slot;
      assert Occupied(rates, slots[k]);
    }
  }

  // ---- what is stored ----------------------------------------------------------------------

  /** Rows stay, but that those of the slot are switched off. */
  predicate SlotCleared(before: seq<PrivateRate>, after: seq<PrivateRate>, slot: Slot) {
    |before| <= |after| && forall i :: 0 <= i < |before| ==>
      after[i] == before[i].(active := before[i].active && before[i].slot != slot)
  }

  /** A rate is accepted exactly if it is positive and its collaboration, if it names one, is known. It is
      stored active, to six digits, under what the request names; a target that is not given is that
      of the collaboration, or any. */
  lemma RateIsSetAsAsked(l: Ledger, company: Company, q: RateRequest)
    requires OneActive(l.tariffs)
    ensures RateSet(l, company, q).Ok? <==> q.rate > 0.0 && (q.collab.Some? ==> q.collab.value < |l.pacts.collabs|)
    ensures RateSet(l, company, q).Ok? ==>
      var after := RateSet(l, company, q).value;
      && after == l.(tariffs := after.tariffs)
      && |after.tariffs| == |l.tariffs| + 1
      && var row := after.tariffs[|l.tariffs|];
         && SlotCleared(l.tariffs, after.tariffs, row.slot)
         && row.active && NearestRate(row.rate, q.rate) && row.country == q.country
         && row.slot.company == company && row.slot.collab == q.collab && row.slot.currency == q.currency
         && row.slot.mode == q.mode
         && row.slot.target == (if q.target.Some? then q.target
                                else if q.collab.Some? then Some(l.pacts.collabs[q.collab.value].currency)
                                else None)
  {
    StoredRateIsNearest(q.rate, StoredRate(q.rate));
    hide NearestRate, StoredRate;
  }

  /** A row is switched by its company; switched on, it takes its slot over from any other. */
  lemma RowIsSwitched(l: Ledger, company: Company, id: Id, active: bool)
    requires OneActive(l.tariffs)
    ensures ActiveStatusSet(l, company, id, active).Ok? <==>
      id < |l.tariffs| && l.tariffs[id].slot.company == company
    ensures ActiveStatusSet(l, company, id, active).Ok? ==>
      var after := ActiveStatusSet(l, company, id, active).value;
      && after == l.(tariffs := after.tariffs)
      && |after.tariffs| == |l.tariffs|
      && forall i :: 0 <= i < |l.tariffs| ==>
           after.tariffs[i] == l.tariffs[i].(
             active := if i == id then active
                       else l.tariffs[i].active && !(active && l.tariffs[i].slot == l.tariffs[id].slot))
  {
  }
}
