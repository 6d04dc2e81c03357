/** Collaborations between two companies and the negotiation of their rate
    (app/services/collaboration_service.py). */
module Collaborations {
  import opened Money
  import opened Tables

  predicate IsParty(c: Collab, company: Company) {
    company == c.initiator || company == c.target
  }

  /** `_get_owned_collaboration`. */
  predicate Owned(p: Pacts, company: Company, c: Id) {
    c < |p.collabs| && IsParty(p.collabs[c], company)
  }

  predicate Active(c: Collab) {
    c.status.CollabPending? || c.status.CollabAccepted?
  }

  predicate SamePair(c: Collab, a: Company, b: Company) {
    (c.initiator == a && c.target == b) || (c.initiator == b && c.target == a)
  }

  predicate ActiveBetween(p: Pacts, a: Company, b: Company) {
    exists i :: 0 <= i < |p.collabs| && SamePair(p.collabs[i], a, b) && Active(p.collabs[i])
  }

  /** `get_pending_proposal`. */
  function PendingProposal(rates: seq<RateRow>, c: Id): (r: Option<nat>)
    ensures r.Some? ==> r.value < |rates| && rates[r.value].collab == c && rates[r.value].status.Proposed?
    ensures r.None? ==> forall i :: 0 <= i < |rates| ==> !(rates[i].collab == c && rates[i].status.Proposed?)
  {
    if rates == [] then None
    else if rates[|rates| - 1].collab == c && rates[|rates| - 1].status.Proposed? then Some(|rates| - 1)
    else PendingProposal(rates[..|rates| - 1], c)
  }

  function Decided(row: RateRow, status: RateStatus, company: Company, clock: nat): RateRow {
    row.(status := status, decidedBy := Some(company), decidedAt := Some(clock))
  }

  function Requested(
    p: Pacts, company: Company, target: Option<Company>, currency: Currency, rate: real): Result<Pacts>
  {
    if rate <= 0.0 then Err(Invalid)
    else if target.None? then Err(NotFound)
    else if target.value == company || ActiveBetween(p, company, target.value) then Err(Conflict)
    else Ok(p.(
      collabs := p.collabs + [Collab(company, target.value, currency, CollabPending, None)],
      rates := p.rates + [RateRow(|p.collabs|, None, StoredRate(rate), Proposed, company, None, None)]))
  }

  function Accepted(p: Pacts, company: Company, c: Id): Result<Pacts> {
    if !Owned(p, company, c) then Err(NotFound)
    else if p.collabs[c].target != company then Err(PermissionDenied)
    else if !p.collabs[c].status.CollabPending? then Err(Conflict)
    else
      match PendingProposal(p.rates, c)
      case None => Ok(p.(collabs := p.collabs[c := p.collabs[c].(status := CollabAccepted)]))
      case Some(r) => Ok(Pacts(
        p.collabs[c := p.collabs[c].(status := CollabAccepted, currentRate := Some(r))],
        p.rates[r := Decided(p.rates[r], RateAccepted, company, p.clock)], p.clock + 1))
  }

  function RejectedBy(p: Pacts, company: Company, c: Id): Result<Pacts> {
    if !Owned(p, company, c) then Err(NotFound)
    else if p.collabs[c].target != company then Err(PermissionDenied)
    else if !p.collabs[c].status.CollabPending? then Err(Conflict)
    else
      var collabs := p.collabs[c := p.collabs[c].(status := CollabRejected)];
      match PendingProposal(p.rates, c)
      case None => Ok(p.(collabs := collabs))
      case Some(r) => Ok(Pacts(
        collabs, p.rates[r := Decided(p.rates[r], RateRejected, company, p.clock)], p.clock + 1))
  }

  function CancelledBy(p: Pacts, company: Company, c: Id): Result<Pacts> {
    if !Owned(p, company, c) then Err(NotFound)
    else if p.collabs[c].initiator != company then Err(PermissionDenied)
    else if !p.collabs[c].status.CollabPending? then Err(Conflict)
    else Ok(p.(collabs := p.collabs[c := p.collabs[c].(status := CollabCancelled)]))
  }

  function Updated(p: Pacts, company: Company, c: Id, currency: Option<Currency>, rate: Option<real>): Result<Pacts> {
    if rate.Some? && rate.value <= 0.0 then Err(Invalid)
    else if !Owned(p, company, c) then Err(NotFound)
    else if p.collabs[c].initiator != company then Err(PermissionDenied)
    else if !p.collabs[c].status.CollabPending? then Err(Conflict)
    else
      var collabs := if currency.Some? then p.collabs[c := p.collabs[c].(currency := currency.value)] else p.collabs;
      var proposal := PendingProposal(p.rates, c);
      var rates := if rate.Some? && proposal.Some?
                   then p.rates[proposal.value := p.rates[proposal.value].(newRate := StoredRate(rate.value))]
                   else p.rates;
      Ok(p.(collabs := collabs, rates := rates))
  }

  function CurrentRate(p: Pacts, c: Id): Option<real>
    requires c < |p.collabs|
  {
    var current := p.collabs[c].currentRate;
    if current.Some? && current.value < |p.rates| then Some(p.rates[current.value].newRate) else None
  }

  function RateProposed(p: Pacts, company: Company, c: Id, rate: real): Result<Pacts> {
    if rate <= 0.0 then Err(Invalid)
    else if !Owned(p, company, c) then Err(NotFound)
    else if !p.collabs[c].status.CollabAccepted? || PendingProposal(p.rates, c).Some? then Err(Conflict)
    else Ok(p.(rates := p.rates + [RateRow(c, CurrentRate(p, c), StoredRate(rate), Proposed, company, None, None)]))
  }

  /** The checks shared by the two decisions on a proposal. */
  function DecisionRefusal(p: Pacts, company: Company, c: Id, r: Id): Option<Error> {
    if !Owned(p, company, c) || r >= |p.rates| || p.rates[r].collab != c then Some(NotFound)
    else if !p.rates[r].status.Proposed? then Some(Conflict)
    else if p.rates[r].proposedBy == company then Some(PermissionDenied)
    else None
  }

  function ProposalAccepted(p: Pacts, company: Company, c: Id, r: Id): Result<Pacts> {
    match DecisionRefusal(p, company, c, r)
    case Some(e) => Err(e)
    case None => Ok(Pacts(
      p.collabs[c := p.collabs[c].(currentRate := Some(r))],
      p.rates[r := Decided(p.rates[r], RateAccepted, company, p.clock)], p.clock + 1))
  }

  function ProposalRejected(p: Pacts, company: Company, c: Id, r: Id): Result<Pacts> {
    match DecisionRefusal(p, company, c, r)
    case Some(e) => Err(e)
    case None =>
      Ok(p.(rates := p.rates[r := Decided(p.rates[r], RateRejected, company, p.clock)], clock := p.clock + 1))
  }

  /** The same, lifted to the deployment. */
  function InLedger(l: Ledger, r: Result<Pacts>): Result<Ledger> {
    match r
    case Ok(p) => Ok(l.(pacts := p))
    case Err(e) => Err(e)
  }

  ghost predicate SettledPacts(before: Ledger, spec: Result<Pacts>, after: Ledger, outcome: Result<()>) {
    Settled(before, InLedger(before, spec), after, outcome)
  }

  // ---- services ----------------------------------------------------------------------------

  method RequestCollaboration(
    session: Session, company: Company, target: Option<Company>, currency: Currency, rate: real) returns (r: Result<()>)
    requires session.Clean()
    modifies session
    ensures session.Clean()
    ensures SettledPacts(
      old(session.db), Requested(old(session.db.pacts), company, target, currency, rate), session.db, r)
  {
    var p := session.view.pacts;
    if rate <= 0.0 {
      return Err(Invalid);
    }
    if target.None? {
      return Err(NotFound);
    }
    if target.value == company {
      return Err(Conflict);
    }
    if ActiveBetween(p, company, target.value) {
      return Err(Conflict);
    }
    var c := |p.collabs|;
    var collabs := p.collabs + [Collab(company, target.value, currency, CollabPending, None)];
    var rates := p.rates + [RateRow(c, None, StoredRate(rate), Proposed, company, None, None)];
    session.view := session.view.(pacts := p.(collabs := collabs, rates := rates));
    session.Commit();
    return Ok(());
  }

  method AcceptCollaboration(session: Session, company: Company, c: Id) returns (r: Result<()>)
    requires session.Clean()
    modifies session
    ensures session.Clean()
    ensures SettledPacts(
      old(session.db), Accepted(old(session.db.pacts), company, c), session.db, r)
  {
    var p := session.view.pacts;
    if c >= |p.collabs| || !IsParty(p.collabs[c], company) {
      return Err(NotFound);
    }
    var collaboration := p.collabs[c];
    if collaboration.target != company {
      return Err(PermissionDenied);
    }
    if !collaboration.status.CollabPending? {
      return Err(Conflict);
    }
    var proposal := PendingProposal(p.rates, c);
    if proposal.Some? {
      var row := p.rates[proposal.value];
      row := row.(status := RateAccepted, decidedBy := Some(company), decidedAt := Some(p.clock));
      p := p.(rates := p.rates[proposal.value := row], clock := p.clock + 1);
      collaboration := collaboration.(currentRate := Some(proposal.value));
    }
    collaboration := collaboration.(status := CollabAccepted);
    session.view := session.view.(pacts := p.(collabs := p.collabs[c := collaboration]));
    session.Commit();
    return Ok(());
  }

  method RejectCollaboration(session: Session, company: Company, c: Id) returns (r: Result<()>)
    requires session.Clean()
    modifies session
    ensures session.Clean()
    ensures SettledPacts(
      old(session.db), RejectedBy(old(session.db.pacts), company, c), session.db, r)
  {
    var p := session.view.pacts;
    if c >= |p.collabs| || !IsParty(p.collabs[c], company) {
      return Err(NotFound);
    }
    if p.collabs[c].target != company {
      return Err(PermissionDenied);
    }
    if !p.collabs[c].status.CollabPending? {
      return Err(Conflict);
    }
    var proposal := PendingProposal(p.rates, c);
    if proposal.Some? {
      var row := p.rates[proposal.value];
      row := row.(status := RateRejected, decidedBy := Some(company), decidedAt := Some(p.clock));
      p := p.(rates := p.rates[proposal.value := row], clock := p.clock + 1);
    }
    p := p.(collabs := p.collabs[c := p.collabs[c].(status := CollabRejected)]);
    session.view := session.view.(pacts := p);
    session.Commit();
    return Ok(());
  }

  method CancelCollaboration(session: Session, company: Company, c: Id) returns (r: Result<()>)
    requires session.Clean()
    modifies session
    ensures session.Clean()
    ensures SettledPacts(
      old(session.db), CancelledBy(old(session.db.pacts), company, c), session.db, r)
  {
    var p := session.view.pacts;
    if c >= |p.collabs| || !IsParty(p.collabs[c], company) {
      return Err(NotFound);
    }
    if p.collabs[c].initiator != company {
      return Err(PermissionDenied);
    }
    if !p.collabs[c].status.CollabPending? {
      return Err(Conflict);
    }
    p := p.(collabs := p.collabs[c := p.collabs[c].(status := CollabCancelled)]);
    session.view := session.view.(pacts := p);
    session.Commit();
    return Ok(());
  }

  method UpdateCollaboration(
    session: Session, company: Company, c: Id, currency: Option<Currency>, rate: Option<real>) returns (r: Result<()>)
    requires session.Clean()
    modifies session
    ensures session.Clean()
    ensures SettledPacts(
      old(session.db), Updated(old(session.db.pacts), company, c, currency, rate), session.db, r)
  {
    var p := session.view.pacts;
    if rate.Some? && rate.value <= 0.0 {
      return Err(Invalid);
    }
    if c >= |p.collabs| || !IsParty(p.collabs[c], company) {
      return Err(NotFound);
    }
    if p.collabs[c].initiator != company {
      return Err(PermissionDenied);
    }
    if !p.collabs[c].status.CollabPending? {
      return Err(Conflict);
    }
    if currency.Some? {
      p := p.(collabs := p.collabs[c := p.collabs[c].(currency := currency.value)]);
    }
    var proposal := PendingProposal(p.rates, c);
    if rate.Some? && proposal.Some? {
      p := p.(rates := p.rates[proposal.value := p.rates[proposal.value].(newRate := StoredRate(rate.value))]);
    }
    session.view := session.view.(pacts := p);
    session.Commit();
    return Ok(());
  }

  method ProposeRateChange(session: Session, company: Company, c: Id, rate: real) returns (r: Result<()>)
    requires session.Clean()
    modifies session
    ensures session.Clean()
    ensures SettledPacts(
      old(session.db), RateProposed(old(session.db.pacts), company, c, rate), session.db, r)
  {
    var p := session.view.pacts;
    if rate <= 0.0 {
      return Err(Invalid);
    }
    if c >= |p.collabs| || !IsParty(p.collabs[c], company) {
      return Err(NotFound);
    }
    if !p.collabs[c].status.CollabAccepted? {
      return Err(Conflict);
    }
    var pending := PendingProposal(p.rates, c);
    if pending.Some? {
      return Err(Conflict);
    }
    var current := CurrentRate(p, c);
    var proposal := RateRow(c, current, StoredRate(rate), Proposed, company, None, None);
    session.view := session.view.(pacts := p.(rates := p.rates + [proposal]));
    session.Commit();
    return Ok(());
  }

  method AcceptRateProposal(session: Session, company: Company, c: Id, proposal: Id) returns (r: Result<()>)
    requires session.Clean()
    modifies session
    ensures session.Clean()
    ensures SettledPacts(
      old(session.db), ProposalAccepted(old(session.db.pacts), company, c, proposal), session.db, r)
  {
    var p := session.view.pacts;
    if c >= |p.collabs| || !IsParty(p.collabs[c], company) || proposal >= |p.rates| || p.rates[proposal].collab != c {
      return Err(NotFound);
    }
    var row := p.rates[proposal];
    if !row.status.Proposed? {
      return Err(Conflict);
    }
    if row.proposedBy == company {
      return Err(PermissionDenied);
    }
    row := row.(status := RateAccepted, decidedBy := Some(company), decidedAt := Some(p.clock));
    var collaboration := p.collabs[c].(currentRate := Some(proposal));
    session.view := session.view.(
      pacts := Pacts(p.collabs[c := collaboration], p.rates[proposal := row], p.clock + 1));
    session.Commit();
    return Ok(());
  }

  method RejectRateProposal(session: Session, company: Company, c: Id, proposal: Id) returns (r: Result<()>)
    requires session.Clean()
    modifies session
    ensures session.Clean()
    ensures SettledPacts(
      old(session.db), ProposalRejected(old(session.db.pacts), company, c, proposal), session.db, r)
  {
    var p := session.view.pacts;
    if c >= |p.collabs| || !IsParty(p.collabs[c], company) || proposal >= |p.rates| || p.rates[proposal].collab != c {
      return Err(NotFound);
    }
    var row := p.rates[proposal];
    if !row.status.Proposed? {
      return Err(Conflict);
    }
    if row.proposedBy == company {
      return Err(PermissionDenied);
    }
    row := row.(status := RateRejected, decidedBy := Some(company), decidedAt := Some(p.clock));
    session.view := session.view.(pacts := p.(rates := p.rates[proposal := row], clock := p.clock + 1));
    session.Commit();
    return Ok(());
  }

  // ---- the bilateral chain -----------------------------------------------------------------

  /** The last accepted row of a collaboration among the first `n`. */
  function LastAccepted(rates: seq<RateRow>, c: Id, n: nat): (r: Option<nat>)
    requires n <= |rates|
    ensures r.Some? ==> r.value < n && rates[r.value].collab == c && rates[r.value].status.RateAccepted?
    ensures forall i :: 0 <= i < n && (r.Some? ==> r.value < i) ==>
      !(rates[i].collab == c && rates[i].status.RateAccepted?)
  {
    if n == 0 then None
    else if rates[n - 1].collab == c && rates[n - 1].status.RateAccepted? then Some(n - 1)
    else LastAccepted(rates, c, n - 1)
  }

  function RateOf(rates: seq<RateRow>, r: Option<nat>): Option<real>
    requires r.Some? ==> r.value < |rates|
  {
    if r.None? then None else Some(rates[r.value].newRate)
  }

  /** A row was proposed by one party and, once decided, decided by the other. */
  ghost predicate Bilateral(p: Pacts, k: nat)
    requires k < |p.rates|
  {
    var row := p.rates[k];
    && row.collab < |p.collabs|
    && IsParty(p.collabs[row.collab], row.proposedBy)
    && row.newRate >= 0.0
    && (if row.status.Proposed? then row.decidedBy.None? && row.decidedAt.None?
        else && row.decidedBy.Some? && IsParty(p.collabs[row.collab], row.decidedBy.value)
             && row.decidedBy.value != row.proposedBy
             && row.decidedAt.Some? && row.decidedAt.value < p.clock)
  }

  predicate Earlier(a: Option<nat>, b: Option<nat>) {
    a.Some? && b.Some? && a.value < b.value
  }

  /** A row that is accepted or may still be continues the accepted rows before it. */
  ghost predicate Linked(p: Pacts, k: nat)
    requires k < |p.rates|
  {
    var row := p.rates[k];
    && (!row.status.RateRejected? ==> row.oldRate == RateOf(p.rates, LastAccepted(p.rates, row.collab, k)))
    && (row.status.Proposed? ==>
          forall j :: k < j < |p.rates| ==> p.rates[j].collab != row.collab)
    && (row.status.RateAccepted? ==>
          forall j :: k < j < |p.rates| && p.rates[j].collab == row.collab && !p.rates[j].status.Proposed?
            ==> Earlier(row.decidedAt, p.rates[j].decidedAt))
  }

  ghost predicate Negotiated(p: Pacts) {
    && (forall k :: 0 <= k < |p.rates| ==> Bilateral(p, k))
    && (forall k :: 0 <= k < |p.rates| ==> Linked(p, k))
    && (forall c :: 0 <= c < |p.collabs| ==> p.collabs[c].initiator != p.collabs[c].target)
    && (forall c :: 0 <= c < |p.collabs| ==> p.collabs[c].currentRate == LastAccepted(p.rates, c, |p.rates|))
    && (forall c, k :: 0 <= c < |p.collabs| && 0 <= k < |p.rates| ==> Opening(p, c, k))
    && (forall i, j :: 0 <= i < j < |p.collabs| ==> Apart(p.collabs[i], p.collabs[j]))
  }

  /** While the collaboration is not accepted yet, only its initiator has proposed. */
  ghost predicate Opening(p: Pacts, c: Id, k: nat)
    requires c < |p.collabs| && k < |p.rates|
  {
    p.collabs[c].status.CollabPending? && p.rates[k].collab == c ==> p.rates[k].proposedBy == p.collabs[c].initiator
  }

  /** Two companies never have two active collaborations. */
  ghost predicate Apart(a: Collab, b: Collab) {
    Active(a) && Active(b) ==> !SamePair(a, b.initiator, b.target)
  }

  lemma {:induction false} LastAcceptedSame(a: seq<RateRow>, b: seq<RateRow>, c: Id, n: nat)
    requires n <= |a| && n <= |b|
    requires forall i :: 0 <= i < n ==>
      ((a[i].collab == c && a[i].status.RateAccepted?) <==> (b[i].collab == c && b[i].status.RateAccepted?))
    ensures LastAccepted(a, c, n) == LastAccepted(b, c, n)
  {
    if n > 0 {
      LastAcceptedSame(a, b, c, n - 1);
    }
  }

  /** A new proposal, when none is pending, extends the chain from its current end. */
  lemma ProposalKeeps(p: Pacts, row: RateRow)
    requires Negotiated(p)
    requires row.newRate >= 0.0
    requires row.collab < |p.collabs| && row.status.Proposed? && row.decidedBy.None? && row.decidedAt.None?
    requires IsParty(p.collabs[row.collab], row.proposedBy)
    requires p.collabs[row.collab].status.CollabPending? ==> row.proposedBy == p.collabs[row.collab].initiator
    requires PendingProposal(p.rates, row.collab).None?
    requires row.oldRate == RateOf(p.rates, LastAccepted(p.rates, row.collab, |p.rates|))
    ensures Negotiated(p.(rates := p.rates + [row]))
  {
    var q := p.(rates := p.rates + [row]);
    forall k | 0 <= k < |q.rates| ensures Bilateral(q, k) && Linked(q, k) {
      LastAcceptedSame(p.rates, q.rates, q.rates[k].collab, k);
      if k < |p.rates| {
        assert Bilateral(p, k) && Linked(p, k);
      }
    }
    forall c | 0 <= c < |q.collabs| ensures q.collabs[c].currentRate == LastAccepted(q.rates, c, |q.rates|) {
      LastAcceptedSame(p.rates, q.rates, c, |p.rates|);
    }
    forall c, k | 0 <= c < |q.collabs| && 0 <= k < |q.rates| ensures Opening(q, c, k) {
      assert k < |p.rates| ==> Opening(p, c, k);
    }
  }

  /** The decision on the pending proposal `r`; accepting it moves the pointer to it. */
  function DecidedPacts(p: Pacts, r: Id, status: RateStatus, company: Company): Pacts
    requires r < |p.rates| && p.rates[r].collab < |p.collabs|
  {
    var c := p.rates[r].collab;
    var current := if status.RateAccepted? then Some(r) else p.collabs[c].currentRate;
    Pacts(p.collabs[c := p.collabs[c].(currentRate := current)],
          p.rates[r := Decided(p.rates[r], status, company, p.clock)], p.clock + 1)
  }

  ghost predicate Decidable(p: Pacts, r: Id, status: RateStatus, company: Company) {
    && Negotiated(p) && r < |p.rates| && p.rates[r].status.Proposed? && !status.Proposed?
    && Owned(p, company, p.rates[r].collab) && company != p.rates[r].proposedBy
  }

  lemma DecisionKeepsLinks(p: Pacts, r: Id, status: RateStatus, company: Company, k: nat)
    requires Decidable(p, r, status, company) && k < |p.rates|
    ensures Bilateral(DecidedPacts(p, r, status, company), k) && Linked(DecidedPacts(p, r, status, company), k)
  {
    var q := DecidedPacts(p, r, status, company);
    assert Bilateral(p, r) && Linked(p, r) && Bilateral(p, k) && Linked(p, k);
    LastAcceptedSame(p.rates, q.rates, q.rates[k].collab, k);
    forall j | k < j < |q.rates| && q.rates[j].collab == q.rates[k].collab
      ensures k != r && (!q.rates[j].status.Proposed? && q.rates[k].status.RateAccepted? ==>
        Earlier(q.rates[k].decidedAt, q.rates[j].decidedAt))
    {
      assert Bilateral(p, j);
    }
  }

  lemma DecisionKeepsPointer(p: Pacts, r: Id, status: RateStatus, company: Company, d: Id)
    requires Decidable(p, r, status, company) && d < |p.collabs|
    ensures var q := DecidedPacts(p, r, status, company);
      q.collabs[d].currentRate == LastAccepted(q.rates, d, |q.rates|)
  {
    var q := DecidedPacts(p, r, status, company);
    assert Linked(p, r);
    if d != p.rates[r].collab || !status.RateAccepted? {
      LastAcceptedSame(p.rates, q.rates, d, |p.rates|);
    } else {
      var last := LastAccepted(q.rates, d, |q.rates|);
      assert q.rates[r].collab == d && q.rates[r].status.RateAccepted?;
      assert last.Some? && last.value >= r;
    }
  }

  lemma DecisionKeeps(p: Pacts, r: Id, status: RateStatus, company: Company)
    requires Decidable(p, r, status, company)
    ensures Negotiated(DecidedPacts(p, r, status, company))
  {
    hide Bilateral, Linked, LastAccepted;
    var q := DecidedPacts(p, r, status, company);
    forall k | 0 <= k < |q.rates| ensures Bilateral(q, k) && Linked(q, k) {
      DecisionKeepsLinks(p, r, status, company, k);
    }
    forall d | 0 <= d < |q.collabs| ensures q.collabs[d].currentRate == LastAccepted(q.rates, d, |q.rates|) {
      DecisionKeepsPointer(p, r, status, company, d);
    }
    forall d, k | 0 <= d < |q.collabs| && 0 <= k < |q.rates| ensures Opening(q, d, k) {
      assert Opening(p, d, k);
    }
    forall i, j | 0 <= i < j < |q.collabs| ensures Apart(q.collabs[i], q.collabs[j]) {
      assert Apart(p.collabs[i], p.collabs[j]);
    }
  }

  /** Changing the rate of a pending proposal leaves every link in place. */
  lemma AmendmentKeeps(p: Pacts, r: Id, rate: real)
    requires Negotiated(p) && r < |p.rates| && p.rates[r].status.Proposed? && rate >= 0.0
    ensures Negotiated(p.(rates := p.rates[r := p.rates[r].(newRate := rate)]))
  {
    var q := p.(rates := p.rates[r := p.rates[r].(newRate := rate)]);
    forall k | 0 <= k < |q.rates| ensures Bilateral(q, k) && Linked(q, k) {
      assert Bilateral(p, k) && Linked(p, k);
      LastAcceptedSame(p.rates, q.rates, q.rates[k].collab, k);
    }
    forall c | 0 <= c < |q.collabs| ensures q.collabs[c].currentRate == LastAccepted(q.rates, c, |q.rates|) {
      LastAcceptedSame(p.rates, q.rates, c, |p.rates|);
    }
    forall c, k | 0 <= c < |q.collabs| && 0 <= k < |q.rates| ensures Opening(q, c, k) {
      assert Opening(p, c, k);
    }
  }

  /** A change of status out of PENDING, or of currency, touches no rate. */
  lemma StatusKeeps(p: Pacts, c: Id, after: Collab)
    requires Negotiated(p) && c < |p.collabs| && Active(p.collabs[c])
    requires after.initiator == p.collabs[c].initiator && after.target == p.collabs[c].target
    requires after.currentRate == p.collabs[c].currentRate
    requires after.status.CollabPending? ==> p.collabs[c].status.CollabPending?
    ensures Negotiated(p.(collabs := p.collabs[c := after]))
  {
    var q := p.(collabs := p.collabs[c := after]);
    forall k | 0 <= k < |q.rates| ensures Bilateral(q, k) && Linked(q, k) {
      assert Bilateral(p, k) && Linked(p, k);
    }
    forall d, k | 0 <= d < |q.collabs| && 0 <= k < |q.rates| ensures Opening(q, d, k) {
      assert Opening(p, d, k);
    }
    forall i, j | 0 <= i < j < |q.collabs| ensures Apart(q.collabs[i], q.collabs[j]) {
      assert Apart(p.collabs[i], p.collabs[j]);
    }
  }

  lemma {:induction false} NoneAccepted(rates: seq<RateRow>, c: Id, n: nat)
    requires n <= |rates| && forall k :: 0 <= k < n ==> rates[k].collab != c
    ensures LastAccepted(rates, c, n).None?
  {
    if n > 0 {
      NoneAccepted(rates, c, n - 1);
    }
  }

  lemma RequestKeeps(p: Pacts, company: Company, target: Option<Company>, currency: Currency, rate: real)
    requires Negotiated(p) && Requested(p, company, target, currency, rate).Ok?
    ensures Negotiated(Requested(p, company, target, currency, rate).value)
  {
    var c := |p.collabs|;
    var q := p.(collabs := p.collabs + [Collab(company, target.value, currency, CollabPending, None)]);
    forall k | 0 <= k < |q.rates| ensures Bilateral(q, k) && Linked(q, k) && q.rates[k].collab != c {
      assert Bilateral(p, k) && Linked(p, k);
    }
    NoneAccepted(q.rates, c, |q.rates|);
    forall d, k | 0 <= d < |q.collabs| && 0 <= k < |q.rates| ensures Opening(q, d, k) {
      assert d < c ==> Opening(p, d, k);
    }
    forall i, j | 0 <= i < j < |q.collabs| ensures Apart(q.collabs[i], q.collabs[j]) {
      if j < c {
        assert Apart(p.collabs[i], p.collabs[j]);
      }
    }
    ProposalKeeps(q, RateRow(c, None, StoredRate(rate), Proposed, company, None, None));
  }

  lemma AcceptanceKeeps(p: Pacts, company: Company, c: Id)
    requires Negotiated(p) && Accepted(p, company, c).Ok?
    ensures Negotiated(Accepted(p, company, c).value)
  {
    match PendingProposal(p.rates, c)
    case None =>
      StatusKeeps(p, c, p.collabs[c].(status := CollabAccepted));
    case Some(r) =>
      assert Opening(p, c, r);
      DecisionKeeps(p, r, RateAccepted, company);
      var q := Pacts(p.collabs[c := p.collabs[c].(currentRate := Some(r))],
                     p.rates[r := Decided(p.rates[r], RateAccepted, company, p.clock)], p.clock + 1);
      StatusKeeps(q, c, q.collabs[c].(status := CollabAccepted));
      assert q.collabs[c := q.collabs[c].(status := CollabAccepted)]
        == p.collabs[c := p.collabs[c].(status := CollabAccepted, currentRate := Some(r))];
  }

  lemma RejectionKeeps(p: Pacts, company: Company, c: Id)
    requires Negotiated(p) && RejectedBy(p, company, c).Ok?
    ensures Negotiated(RejectedBy(p, company, c).value)
  {
    var after := p.collabs[c].(status := CollabRejected);
    match PendingProposal(p.rates, c)
    case None =>
      StatusKeeps(p, c, after);
    case Some(r) =>
      assert Opening(p, c, r);
      DecisionKeeps(p, r, RateRejected, company);
      var q := p.(rates := p.rates[r := Decided(p.rates[r], RateRejected, company, p.clock)], clock := p.clock + 1);
      assert p.collabs[c := p.collabs[c].(currentRate := p.collabs[c].currentRate)] == p.collabs;
      StatusKeeps(q, c, after);
  }

  lemma UpdateKeeps(p: Pacts, company: Company, c: Id, currency: Option<Currency>, rate: Option<real>)
    requires Negotiated(p) && Updated(p, company, c, currency, rate).Ok?
    ensures Negotiated(Updated(p, company, c, currency, rate).value)
  {
    var q := if currency.Some? then p.(collabs := p.collabs[c := p.collabs[c].(currency := currency.value)]) else p;
    if currency.Some? {
      StatusKeeps(p, c, p.collabs[c].(currency := currency.value));
    }
    var proposal := PendingProposal(p.rates, c);
    if rate.Some? && proposal.Some? {
      AmendmentKeeps(q, proposal.value, StoredRate(rate.value));
    }
  }

  lemma RateProposalKeeps(p: Pacts, company: Company, c: Id, rate: real)
    requires Negotiated(p) && RateProposed(p, company, c, rate).Ok?
    ensures Negotiated(RateProposed(p, company, c, rate).value)
  {
    ProposalKeeps(p, RateRow(c, CurrentRate(p, c), StoredRate(rate), Proposed, company, None, None));
  }

  lemma ProposalDecisionKeeps(p: Pacts, company: Company, c: Id, r: Id)
    requires Negotiated(p) && DecisionRefusal(p, company, c, r).None?
    ensures Negotiated(ProposalAccepted(p, company, c, r).value)
    ensures Negotiated(ProposalRejected(p, company, c, r).value)
  {
    DecisionKeeps(p, r, RateAccepted, company);
    DecisionKeeps(p, r, RateRejected, company);
    assert p.collabs[c := p.collabs[c].(currentRate := p.collabs[c].currentRate)] == p.collabs;
  }

  // ---- what the chain means ----------------------------------------------------------------

  /** At most one proposal is pending, so `get_pending_proposal` never meets two rows. */
  lemma OnePendingProposal(p: Pacts, i: nat, j: nat)
    requires Negotiated(p) && i < |p.rates| && j < |p.rates|
    requires p.rates[i].collab == p.rates[j].collab && p.rates[i].status.Proposed? && p.rates[j].status.Proposed?
    ensures i == j
  {
    assert Linked(p, i) && Linked(p, j);
  }

  /** At most one collaboration between two companies is active, so `get_active_between` never
      meets two rows. */
  lemma OneActiveCollaboration(p: Pacts, i: nat, j: nat, a: Company, b: Company)
    requires Negotiated(p) && i < |p.collabs| && j < |p.collabs|
    requires Active(p.collabs[i]) && Active(p.collabs[j])
    requires SamePair(p.collabs[i], a, b) && SamePair(p.collabs[j], a, b)
    ensures i == j
  {
    assert i < j ==> Apart(p.collabs[i], p.collabs[j]);
    assert j < i ==> Apart(p.collabs[j], p.collabs[i]);
  }

  /** Two accepted rows with no accepted row between them: the later one was decided later and
      starts from the earlier one's rate; the first accepted row starts from nothing; the pointer
      is on the last one. Both companies took part in each. */
  lemma AcceptedRatesChain(p: Pacts, i: nat, j: nat)
    requires Negotiated(p) && i <= j < |p.rates|
    requires var c := p.rates[i].collab;
      && p.rates[j].collab == c && p.rates[i].status.RateAccepted? && p.rates[j].status.RateAccepted?
      && forall k :: i < k < j && p.rates[k].collab == c ==> !p.rates[k].status.RateAccepted?
    ensures p.rates[j].collab < |p.collabs|
    ensures i < j ==>
      p.rates[j].oldRate == Some(p.rates[i].newRate) && Earlier(p.rates[i].decidedAt, p.rates[j].decidedAt)
    ensures (forall k :: 0 <= k < i && p.rates[k].collab == p.rates[i].collab ==> !p.rates[k].status.RateAccepted?)
      ==> p.rates[i].oldRate.None?
    ensures (forall k :: j < k < |p.rates| && p.rates[k].collab == p.rates[j].collab ==>
               !p.rates[k].status.RateAccepted?)
      <==> p.collabs[p.rates[j].collab].currentRate == Some(j)
    ensures p.rates[j].decidedBy.Some?
      && {p.rates[j].proposedBy, p.rates[j].decidedBy.value}
         == {p.collabs[p.rates[j].collab].initiator, p.collabs[p.rates[j].collab].target}
  {
    assert Bilateral(p, i) && Bilateral(p, j) && Linked(p, i) && Linked(p, j);
    var c := p.rates[i].collab;
    var before := LastAccepted(p.rates, c, j);
    if i < j {
      assert before == Some(i);
    }
    assert LastAccepted(p.rates, c, |p.rates|).Some?;
  }

  // ---- the rates are those asked for -------------------------------------------------------

  /** A request adds a PENDING collaboration in the currency asked for, and a proposal of the rate asked
      for that starts from none; it is accepted exactly for a positive rate and another company with which
      the company has no active collaboration. */
  lemma RequestProposesItsRate(
    p: Pacts, company: Company, target: Option<Company>, currency: Currency, rate: real, after: Pacts)
    ensures Requested(p, company, target, currency, rate).Ok? <==>
      && rate > 0.0 && target.Some? && target.value != company
      && forall i :: 0 <= i < |p.collabs| && Active(p.collabs[i]) ==>
           {p.collabs[i].initiator, p.collabs[i].target} != {company, target.value}
    ensures Requested(p, company, target, currency, rate) == Ok(after) ==>
      && |after.collabs| == |p.collabs| + 1 && after.collabs[..|p.collabs|] == p.collabs
      && after.collabs[|p.collabs|] == Collab(company, target.value, currency, CollabPending, None)
      && |after.rates| == |p.rates| + 1 && after.rates[..|p.rates|] == p.rates && after.clock == p.clock
      && var row := after.rates[|p.rates|];
         && row.collab == |p.collabs| && row.oldRate.None? && NearestRate(row.newRate, rate)
         && row.status.Proposed? && row.proposedBy == company
  {
    StoredRateIsNearest(rate, StoredRate(rate));
    hide StoredRate, NearestRate;
    if target.Some? {
      forall i | 0 <= i < |p.collabs|
        ensures SamePair(p.collabs[i], company, target.value)
          <==> {p.collabs[i].initiator, p.collabs[i].target} == {company, target.value}
      {
        var x, y := p.collabs[i].initiator, p.collabs[i].target;
        assert x in {x, y} && y in {x, y};
        assert company in {company, target.value} && target.value in {company, target.value};
      }
    }
  }

  /** An amendment by the initiator of a PENDING collaboration sets the currency, and the rate of every
      proposal that is pending, of which there is one at most. */
  lemma UpdateSetsItsRate(
    p: Pacts, company: Company, c: Id, currency: Option<Currency>, rate: Option<real>, after: Pacts)
    requires Negotiated(p) && Updated(p, company, c, currency, rate) == Ok(after)
    ensures c < |p.collabs| && p.collabs[c].initiator == company && p.collabs[c].status.CollabPending?
    ensures after.collabs
      == if currency.Some? then p.collabs[c := p.collabs[c].(currency := currency.value)] else p.collabs
    ensures |after.rates| == |p.rates| && after.clock == p.clock
    ensures forall r :: 0 <= r < |p.rates| ==>
      if rate.Some? && p.rates[r].collab == c && p.rates[r].status.Proposed?
      then
        && after.rates[r] == p.rates[r].(newRate := after.rates[r].newRate)
        && NearestRate(after.rates[r].newRate, rate.value)
      else after.rates[r] == p.rates[r]
  {
    if rate.Some? {
      StoredRateIsNearest(rate.value, StoredRate(rate.value));
    }
    forall r | 0 <= r < |p.rates| && p.rates[r].collab == c && p.rates[r].status.Proposed?
      ensures PendingProposal(p.rates, c) == Some(r)
    {
      OnePendingProposal(p, r, PendingProposal(p.rates, c).value);
    }
    hide StoredRate, NearestRate, Negotiated;
  }

  /** A proposal is added by a party of an accepted collaboration in which none is pending; it goes from the
      rate of the last accepted row, if there is one, to the rate asked for. */
  lemma ProposalProposesItsRate(p: Pacts, company: Company, c: Id, rate: real, after: Pacts)
    requires Negotiated(p)
    ensures RateProposed(p, company, c, rate).Ok? <==>
      && rate > 0.0 && c < |p.collabs| && company in {p.collabs[c].initiator, p.collabs[c].target}
      && p.collabs[c].status.CollabAccepted?
      && forall r :: 0 <= r < |p.rates| && p.rates[r].collab == c ==> !p.rates[r].status.Proposed?
    ensures RateProposed(p, company, c, rate) == Ok(after) ==>
      && after.collabs == p.collabs && after.clock == p.clock
      && |after.rates| == |p.rates| + 1 && after.rates[..|p.rates|] == p.rates
      && var row := after.rates[|p.rates|];
         && row.collab == c && row.oldRate == RateOf(p.rates, LastAccepted(p.rates, c, |p.rates|))
         && NearestRate(row.newRate, rate) && row.status.Proposed? && row.proposedBy == company
  {
    StoredRateIsNearest(rate, StoredRate(rate));
    hide StoredRate, NearestRate;
  }

  // ---- what a decision decides -------------------------------------------------------------

  /** The pending proposal of `c`, if there is one, gets the decision of `company`; other rows stay. */
  ghost predicate PendingIsDecided(p: Pacts, after: Pacts, c: Id, status: RateStatus, company: Company) {
    && |after.rates| == |p.rates|
    && forall r :: 0 <= r < |p.rates| ==>
      if p.rates[r].collab == c && p.rates[r].status.Proposed?
      then after.rates[r]
           == p.rates[r].(status := status, decidedBy := Some(company), decidedAt := Some(p.clock))
      else after.rates[r] == p.rates[r]
  }

  lemma OnlyPending(p: Pacts, c: Id)
    requires Negotiated(p)
    ensures forall r :: 0 <= r < |p.rates| && p.rates[r].collab == c && p.rates[r].status.Proposed? ==>
      PendingProposal(p.rates, c) == Some(r)
  {
    forall r | 0 <= r < |p.rates| && p.rates[r].collab == c && p.rates[r].status.Proposed?
      ensures PendingProposal(p.rates, c) == Some(r)
    {
      OnePendingProposal(p, r, PendingProposal(p.rates, c).value);
    }
  }

  /** A PENDING collaboration is accepted or rejected by its target, and with it the pending proposal, which
      becomes the current rate if it is accepted. */
  lemma TargetDecides(p: Pacts, company: Company, c: Id)
    requires Negotiated(p)
    ensures Accepted(p, company, c).Ok? <==>
      c < |p.collabs| && company == p.collabs[c].target && p.collabs[c].status.CollabPending?
    ensures RejectedBy(p, company, c).Ok? <==> Accepted(p, company, c).Ok?
    ensures Accepted(p, company, c).Ok? ==>
      var after, pending := Accepted(p, company, c).value, PendingProposal(p.rates, c);
      && PendingIsDecided(p, after, c, RateAccepted, company)
      && after.collabs == p.collabs[c := p.collabs[c].(
           status := CollabAccepted,
           currentRate := if pending.Some? then pending else p.collabs[c].currentRate)]
    ensures RejectedBy(p, company, c).Ok? ==>
      var after := RejectedBy(p, company, c).value;
      && PendingIsDecided(p, after, c, RateRejected, company)
      && after.collabs == p.collabs[c := p.collabs[c].(status := CollabRejected)]
  {
    OnlyPending(p, c);
    hide Negotiated;
  }

  /** It is cancelled by its initiator, which leaves the proposal pending. */
  lemma InitiatorCancels(p: Pacts, company: Company, c: Id)
    ensures CancelledBy(p, company, c).Ok? <==>
      c < |p.collabs| && company == p.collabs[c].initiator && p.collabs[c].status.CollabPending?
    ensures CancelledBy(p, company, c).Ok? ==>
      CancelledBy(p, company, c).value == p.(collabs := p.collabs[c := p.collabs[c].(status := CollabCancelled)])
  {
  }

  /** A pending proposal is accepted or rejected by the party that did not make it, whatever has become of
      the collaboration; the current rate moves to it exactly if it is accepted. */
  lemma OtherPartyDecides(p: Pacts, company: Company, c: Id, r: Id)
    requires Negotiated(p)
    ensures ProposalAccepted(p, company, c, r).Ok? <==>
      && r < |p.rates| && p.rates[r].collab == c && p.rates[r].status.Proposed? && c < |p.collabs|
      && {p.rates[r].proposedBy, company} == {p.collabs[c].initiator, p.collabs[c].target}
    ensures ProposalRejected(p, company, c, r).Ok? <==> ProposalAccepted(p, company, c, r).Ok?
    ensures ProposalAccepted(p, company, c, r).Ok? ==>
      var accepted, rejected := ProposalAccepted(p, company, c, r).value, ProposalRejected(p, company, c, r).value;
      && PendingIsDecided(p, accepted, c, RateAccepted, company)
      && accepted.collabs == p.collabs[c := p.collabs[c].(currentRate := Some(r))]
      && PendingIsDecided(p, rejected, c, RateRejected, company)
      && rejected.collabs == p.collabs
  {
    OnlyPending(p, c);
    assert r < |p.rates| ==> Bilateral(p, r);
    if r < |p.rates| && p.rates[r].collab == c && c < |p.collabs| {
      var a, b, x := p.collabs[c].initiator, p.collabs[c].target, p.rates[r].proposedBy;
      assert a in {a, b} && b in {a, b} && x in {x, company} && company in {x, company};
    }
    hide Negotiated;
  }
}
