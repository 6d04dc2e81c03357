/** Row locking between concurrent requests. A request takes its `FOR UPDATE` locks one at a time,
    reads each row when it gets it, and gives all of them back when it commits or raises. */
module RowLocks {
  import opened Tables
  import opened Sums
  import opened LockOrder

  // ---- who locks what ----------------------------------------------------------------------

  datatype Row = OpRow(op: Id) | WalletRow(wallet: Id)

  /** Operation rows before wallet rows, each in id order. */
  predicate Below(a: Row, b: Row) {
    match (a, b)
    case (OpRow(o), OpRow(p)) => o < p
    case (OpRow(_), WalletRow(_)) => true
    case (WalletRow(_), OpRow(_)) => false
    case (WalletRow(v), WalletRow(w)) => v < w
  }

  /** What a request adds to a wallet. */
  datatype Post = Post(wallet: Id, delta: int)

  datatype Task =
    | Receive(posts: seq<Post>)                                 // create_entry, create_operation
    | Decide(op: Id, verdict: OpStatus, post: Option<Post>)     // approve, reject or cancel an operation
    | PayBack(posts: seq<Post>)                                 // cancel_entry, cancel_operation

  function WalletsOf(posts: seq<Post>): (r: seq<Id>)
    ensures |r| == |posts|
  {
    seq(|posts|, i requires 0 <= i < |posts| => posts[i].wallet)
  }

  function WalletRows(ids: seq<Id>): (r: seq<Row>)
    ensures |r| == |ids|
  {
    seq(|ids|, i requires 0 <= i < |ids| => WalletRow(ids[i]))
  }

  /** The wallets of the lines as they are first met. */
  function InLineOrder(ids: seq<Id>): (r: seq<Id>)
    ensures forall x :: x in r <==> x in ids
    ensures forall i, j :: 0 <= i < j < |r| ==> r[i] != r[j]
  {
    if ids == [] then []
    else
      var before, last := ids[..|ids| - 1], ids[|ids| - 1];
      assert ids == before + [last];
      if last in before then InLineOrder(before) else InLineOrder(before) + [last]
  }

  /** The rows a request locks, in the order it asks for them. */
  function Plan(task: Task): seq<Row> {
    match task
    case Receive(posts) => WalletRows(SortedDistinct(WalletsOf(posts)))
    case Decide(op, _, post) => [OpRow(op)] + if post.Some? then [WalletRow(post.value.wallet)] else []
    case PayBack(posts) => WalletRows(InLineOrder(WalletsOf(posts)))
  }

  predicate Ordered(task: Task) {
    forall i, j :: 0 <= i < j < |Plan(task)| ==> Below(Plan(task)[i], Plan(task)[j])
  }

  /** Requests that sort their wallets, and decisions, lock upwards; a reversal does so exactly when
      its lines first name their wallets in ascending order. */
  lemma WhoLocksUpwards(task: Task)
    ensures !task.PayBack? ==> Ordered(task)
    ensures task.PayBack? ==> (Ordered(task) <==> Ascending(InLineOrder(WalletsOf(task.posts))))
  {
    if task.PayBack? {
      var ids := InLineOrder(WalletsOf(task.posts));
      if Ordered(task) {
        forall i, j | 0 <= i < j < |ids| ensures ids[i] < ids[j] {
          assert Below(Plan(task)[i], Plan(task)[j]);
        }
      }
    }
  }

  function DeltaOf(posts: seq<Post>, a: Id): int {
    if posts == [] then 0 else (if posts[0].wallet == a then posts[0].delta else 0) + DeltaOf(posts[1..], a)
  }

  function PostsOf(task: Task): seq<Post> {
    match task
    case Receive(posts) => posts
    case Decide(_, _, post) => if post.Some? then [post.value] else []
    case PayBack(posts) => posts
  }

  function Delta(task: Task, a: Id): int {
    DeltaOf(PostsOf(task), a)
  }

  /** The test of `apply_movement`, one movement after the other, on the balances that were read. */
  predicate Affordable(posts: seq<Post>, balances: map<Id, int>)
    decreases |posts|
  {
    posts == [] ||
    (&& posts[0].wallet in balances
     && (posts[0].delta < 0 ==> balances[posts[0].wallet] + posts[0].delta >= 0)
     && Affordable(posts[1..], balances[posts[0].wallet := balances[posts[0].wallet] + posts[0].delta]))
  }

  // ---- the protocol ------------------------------------------------------------------------

  datatype Outcome = Running | Committed | Raised

  /** `status` and `balances` are what the request read when it got the rows. */
  datatype Txn = Txn(task: Task, held: nat, status: Option<OpStatus>, balances: map<Id, int>, outcome: Outcome)

  /** `movements[o]` counts the collaborator movements posted for operation o. */
  datatype World = World(
    txns: seq<Txn>, statuses: seq<OpStatus>, history: seq<seq<OpStatus>>, movements: seq<nat>, balances: map<Id, int>)

  function HeldRows(t: Txn): seq<Row> {
    if t.outcome.Running? && t.held <= |Plan(t.task)| then Plan(t.task)[..t.held] else []
  }

  predicate Exists(w: World, r: Row) {
    match r
    case OpRow(o) => o < |w.statuses|
    case WalletRow(a) => a in w.balances
  }

  predicate Wanting(t: Txn) {
    t.outcome.Running? && t.held < |Plan(t.task)|
  }

  function Wanted(t: Txn): Row
    requires Wanting(t)
  {
    Plan(t.task)[t.held]
  }

  /** Request `i` waits for a row that request `j` holds. */
  predicate Waits(w: World, i: nat, j: nat) {
    && i < |w.txns| && j < |w.txns| && i != j
    && Wanting(w.txns[i]) && Wanted(w.txns[i]) in HeldRows(w.txns[j])
  }

  predicate Blocked(w: World, i: nat) {
    exists j :: 0 <= j < |w.txns| && Waits(w, i, j)
  }

  /** What the request has seen makes the service raise: a missing row, an operation that is no longer
      pending, or a wallet that does not hold enough. */
  predicate Refused(w: World, t: Txn) {
    || (Wanting(t) && !Exists(w, Wanted(t)))
    || (t.status.Some? && !t.status.value.Pending?)
    || (t.held == |Plan(t.task)| && !Affordable(PostsOf(t.task), t.balances))
  }

  datatype Move = Acquire(txn: nat) | Commit(txn: nat) | Raise(txn: nat)

  predicate Enabled(w: World, m: Move) {
    && m.txn < |w.txns| && w.txns[m.txn].outcome.Running?
    && match m
       case Acquire(i) => Wanting(w.txns[i]) && !Blocked(w, i) && !Refused(w, w.txns[i])
       case Commit(i) => w.txns[i].held == |Plan(w.txns[i].task)| && !Refused(w, w.txns[i])
       case Raise(i) => !Blocked(w, i)
  }

  function Acquired(w: World, t: Txn): Txn
    requires Wanting(t) && Exists(w, Wanted(t))
  {
    match Wanted(t)
    case OpRow(o) => t.(held := t.held + 1, status := Some(w.statuses[o]))
    case WalletRow(a) => t.(held := t.held + 1, balances := t.balances[a := w.balances[a]])
  }

  /** Balances are written from what was read, not from what is there. */
  function Written(balances: map<Id, int>, t: Txn): (r: map<Id, int>)
    ensures r.Keys == balances.Keys
  {
    map a | a in balances :: if a in t.balances then t.balances[a] + Delta(t.task, a) else balances[a]
  }

  function CommittedWorld(w: World, i: nat): World
    requires i < |w.txns|
  {
    var t := w.txns[i];
    var after := w.(txns := w.txns[i := t.(outcome := Committed)], balances := Written(w.balances, t));
    match t.task
    case Decide(o, verdict, _) =>
      if o < |w.statuses| && o < |w.history| && o < |w.movements| then
        after.(statuses := w.statuses[o := verdict],
               history := w.history[o := w.history[o] + [verdict]],
               movements := w.movements[o := w.movements[o] + if verdict.Approved? then 1 else 0])
      else after
    case _ => after
  }

  function Fire(w: World, m: Move): World {
    if !Enabled(w, m) then w
    else
      match m
      case Acquire(i) => w.(txns := w.txns[i := Acquired(w, w.txns[i])])
      case Commit(i) => CommittedWorld(w, i)
      case Raise(i) => w.(txns := w.txns[i := w.txns[i].(outcome := Raised)])
  }

  function Run(w: World, moves: seq<Move>): World {
    if moves == [] then w else Fire(Run(w, moves[..|moves| - 1]), moves[|moves| - 1])
  }

  /** Any number of requests that have not begun, and operations that are all pending. */
  predicate Start(w: World) {
    && (forall i :: 0 <= i < |w.txns| ==> Idle(w.txns[i]))
    && |w.history| == |w.movements| == |w.statuses|
    && (forall o :: 0 <= o < |w.statuses| ==>
          w.statuses[o].Pending? && w.history[o] == [Pending] && w.movements[o] == 0)
  }

  predicate Idle(t: Txn) {
    && t == Txn(t.task, 0, None, map[], Running)
    && (t.task.Decide? ==> !t.task.verdict.Pending?)
  }

  // ---- what every reachable world keeps ----------------------------------------------------

  /** What a running request has read is still what is there. */
  ghost predicate Current(w: World, t: Txn) {
    && t.held <= |Plan(t.task)|
    && (t.task.Decide? ==> !t.task.verdict.Pending?)
    && (t.outcome.Running? ==>
          && (if t.task.Decide? && t.held > 0
              then t.task.op < |w.statuses| && t.status == Some(w.statuses[t.task.op])
              else t.status.None?)
          && (forall a :: a in t.balances <==> WalletRow(a) in HeldRows(t))
          && (forall a :: a in t.balances ==> a in w.balances && w.balances[a] == t.balances[a]))
  }

  ghost predicate Apart(t: Txn, u: Txn) {
    forall r :: r in HeldRows(t) ==> r !in HeldRows(u)
  }

  /** The history of operation `o` is a valid path that ends at its status, and it has one
      collaborator movement if it is approved and none otherwise. */
  predicate Decided(w: World, o: nat)
    requires o < |w.statuses| && |w.history| == |w.movements| == |w.statuses|
  {
    && w.history[o] == (if w.statuses[o].Pending? then [Pending] else [Pending, w.statuses[o]])
    && w.movements[o] == if w.statuses[o].Approved? then 1 else 0
  }

  ghost predicate Consistent(w: World) {
    && (forall i :: 0 <= i < |w.txns| ==> Current(w, w.txns[i]))
    && (forall i, j :: 0 <= i < |w.txns| && 0 <= j < |w.txns| && i != j ==> Apart(w.txns[i], w.txns[j]))
    && |w.history| == |w.movements| == |w.statuses|
    && (forall o :: 0 <= o < |w.statuses| ==> Decided(w, o))
  }

  /** No row is held by two requests, nothing that was read has gone stale, and every operation has
      at most one decision, in every reachable world. */
  lemma {:induction false} RunKeepsConsistent(w: World, moves: seq<Move>)
    requires Start(w)
    ensures Consistent(Run(w, moves))
  {
    if moves != [] {
      RunKeepsConsistent(w, moves[..|moves| - 1]);
      FireKeepsConsistent(Run(w, moves[..|moves| - 1]), moves[|moves| - 1]);
    }
  }

  lemma FireKeepsConsistent(w: World, m: Move)
    requires Consistent(w)
    ensures Consistent(Fire(w, m))
  {
    if Enabled(w, m) {
      match m {
        case Acquire(i) => AcquireKeeps(w, i);
        case Commit(i) => CommitKeeps(w, i);
        case Raise(i) => RaiseKeeps(w, i);
      }
    }
  }

  lemma RaiseKeeps(w: World, i: nat)
    requires Consistent(w) && Enabled(w, Raise(i))
    ensures Consistent(Fire(w, Raise(i)))
  {
    var after := Fire(w, Raise(i));
    forall j | 0 <= j < |w.txns| ensures Current(after, after.txns[j]) {
      assert Current(w, w.txns[j]);
    }
    forall j, k | 0 <= j < |w.txns| && 0 <= k < |w.txns| && j != k ensures Apart(after.txns[j], after.txns[k]) {
      assert Apart(w.txns[j], w.txns[k]);
    }
    forall o | 0 <= o < |w.statuses| ensures Decided(after, o) {
      assert Decided(w, o);
    }
  }

  lemma HeldAfterAcquire(w: World, t: Txn)
    requires Wanting(t) && Exists(w, Wanted(t))
    ensures HeldRows(Acquired(w, t)) == HeldRows(t) + [Wanted(t)]
  {
  }

  /** The row that is acquired is held by nobody else. */
  lemma AcquireKeepsApart(w: World, i: nat, j: nat)
    requires Consistent(w) && Enabled(w, Acquire(i)) && j < |w.txns| && j != i
    ensures var u := Acquired(w, w.txns[i]); Apart(u, w.txns[j]) && Apart(w.txns[j], u)
  {
    hide Plan, Current;
    HeldAfterAcquire(w, w.txns[i]);
    assert !Waits(w, i, j);
    assert Apart(w.txns[i], w.txns[j]) && Apart(w.txns[j], w.txns[i]);
  }

  lemma AcquireKeepsCurrent(w: World, t: Txn)
    requires Current(w, t) && t.outcome.Running? && Wanting(t) && Exists(w, Wanted(t))
    ensures Current(w, Acquired(w, t))
  {
    HeldAfterAcquire(w, t);
  }

  lemma AcquireKeeps(w: World, i: nat)
    requires Consistent(w) && Enabled(w, Acquire(i))
    ensures Consistent(Fire(w, Acquire(i)))
  {
    hide Plan, Current, Apart;
    var after := Fire(w, Acquire(i));
    forall j | 0 <= j < |w.txns| ensures Current(after, after.txns[j]) {
      if j == i {
        AcquireKeepsCurrent(w, w.txns[i]);
        CurrentInSame(w, after, Acquired(w, w.txns[i]));
      } else {
        CurrentInSame(w, after, w.txns[j]);
      }
    }
    forall j, k | 0 <= j < |w.txns| && 0 <= k < |w.txns| && j != k ensures Apart(after.txns[j], after.txns[k]) {
      if j == i {
        AcquireKeepsApart(w, i, k);
      } else if k == i {
        AcquireKeepsApart(w, i, j);
      }
    }
    forall o | 0 <= o < |w.statuses| ensures Decided(after, o) {
      assert Decided(w, o);
    }
  }

  lemma CurrentInSame(w: World, v: World, t: Txn)
    ensures Current(w, t) && v.statuses == w.statuses && v.balances == w.balances ==> Current(v, t)
  {
  }

  /** A commit leaves alone what other requests have read. */
  lemma CommitKeepsCurrent(w: World, i: nat, j: nat)
    requires Consistent(w) && Enabled(w, Commit(i)) && j < |w.txns| && j != i
    ensures Current(Fire(w, Commit(i)), w.txns[j])
  {
    var t, u := w.txns[i], w.txns[j];
    assert Current(w, t) && Current(w, u) && Apart(t, u);
    if u.outcome.Running? && u.task.Decide? && u.held > 0 && t.task.Decide? {
      assert HeldRows(t)[0] == OpRow(t.task.op) && OpRow(t.task.op) in HeldRows(t);
      assert HeldRows(u)[0] == OpRow(u.task.op) && OpRow(u.task.op) in HeldRows(u);
    }
  }

  /** The decision that is committed is the first one its operation gets. */
  lemma CommitDecides(w: World, i: nat, o: nat)
    requires Consistent(w) && Enabled(w, Commit(i)) && o < |w.statuses|
    ensures var after := Fire(w, Commit(i));
      && |after.history| == |after.movements| == |after.statuses| == |w.statuses|
      && Decided(after, o)
  {
    assert Current(w, w.txns[i]) && Decided(w, o);
    hide Apart, Delta;
  }

  lemma CommitKeepsApart(w: World, i: nat, j: nat, k: nat)
    requires Consistent(w) && Enabled(w, Commit(i)) && j < |w.txns| && k < |w.txns| && j != k
    ensures var after := Fire(w, Commit(i)); Apart(after.txns[j], after.txns[k])
  {
    assert Apart(w.txns[j], w.txns[k]);
    hide Apart, Current, Decided, Delta;
    if j == i || k == i {
      EndedIsApart(w.txns[i].(outcome := Committed), if j == i then w.txns[k] else w.txns[j]);
    }
  }

  lemma CommitKeeps(w: World, i: nat)
    requires Consistent(w) && Enabled(w, Commit(i))
    ensures Consistent(Fire(w, Commit(i)))
  {
    hide Plan, Apart, Delta, Decided;
    var after := Fire(w, Commit(i));
    forall j | 0 <= j < |w.txns| ensures Current(after, after.txns[j]) {
      if j == i {
        assert Current(w, w.txns[i]);
      } else {
        CommitKeepsCurrent(w, i, j);
      }
    }
    forall j, k | 0 <= j < |w.txns| && 0 <= k < |w.txns| && j != k ensures Apart(after.txns[j], after.txns[k]) {
      CommitKeepsApart(w, i, j, k);
    }
    forall o | 0 <= o < |w.statuses| ensures Decided(after, o) {
      CommitDecides(w, i, o);
    }
  }

  lemma EndedIsApart(t: Txn, u: Txn)
    ensures !t.outcome.Running? ==> Apart(t, u) && Apart(u, t)
  {
  }

  // ---- one decision ------------------------------------------------------------------------

  /** Which of the requests decided operation `o`, as 0s and 1s. */
  function Wins(txns: seq<Txn>, o: Id): (r: seq<int>)
    ensures |r| == |txns|
  {
    seq(|txns|, i requires 0 <= i < |txns| => WinOf(txns[i], o))
  }

  function WinOf(t: Txn, o: Id): int {
    if t.outcome.Committed? && t.task.Decide? && t.task.op == o then 1 else 0
  }

  /** What the committed requests add to wallet `a`. */
  function Postings(txns: seq<Txn>, a: Id): (r: seq<int>)
    ensures |r| == |txns|
  {
    seq(|txns|, i requires 0 <= i < |txns| => PostingOf(txns[i], a))
  }

  function PostingOf(t: Txn, a: Id): int {
    if t.outcome.Committed? then Delta(t.task, a) else 0
  }

  lemma {:induction false} OneMoreTxn(txns: seq<Txn>, i: nat, t: Txn)
    requires i < |txns|
    ensures forall o :: Sum(Wins(txns[i := t], o)) == Sum(Wins(txns, o)) - WinOf(txns[i], o) + WinOf(t, o)
    ensures forall a ::
      Sum(Postings(txns[i := t], a)) == Sum(Postings(txns, a)) - PostingOf(txns[i], a) + PostingOf(t, a)
  {
    forall o ensures Sum(Wins(txns[i := t], o)) == Sum(Wins(txns, o)) - WinOf(txns[i], o) + WinOf(t, o) {
      assert Wins(txns[i := t], o) == Wins(txns, o)[i := WinOf(t, o)];
      SumUpdate(Wins(txns, o), i, WinOf(t, o));
    }
    forall a
      ensures Sum(Postings(txns[i := t], a)) == Sum(Postings(txns, a)) - PostingOf(txns[i], a) + PostingOf(t, a)
    {
      assert Postings(txns[i := t], a) == Postings(txns, a)[i := PostingOf(t, a)];
      SumUpdate(Postings(txns, a), i, PostingOf(t, a));
    }
  }

  /** Balances and decisions are those of the committed requests, no more and no less. */
  ghost predicate Serial(start: World, w: World) {
    && w.balances.Keys == start.balances.Keys && |w.statuses| == |start.statuses| && |w.txns| == |start.txns|
    && (forall i :: 0 <= i < |w.txns| ==> w.txns[i].task == start.txns[i].task)
    && (forall a :: a in w.balances ==> w.balances[a] == start.balances[a] + Sum(Postings(w.txns, a)))
    && (forall o :: 0 <= o < |w.statuses| ==> Sum(Wins(w.txns, o)) == if w.statuses[o].Pending? then 0 else 1)
  }

  lemma StartIsSerial(w: World)
    requires Start(w)
    ensures Serial(w, w)
  {
    forall a ensures Sum(Postings(w.txns, a)) == 0 {
      SumZero(Postings(w.txns, a));
    }
    forall o ensures Sum(Wins(w.txns, o)) == 0 {
      SumZero(Wins(w.txns, o));
    }
  }

  /** A wallet of which the request holds no row gets nothing from it. */
  lemma {:induction false} NoDeltaOutside(posts: seq<Post>, a: Id)
    requires a !in WalletsOf(posts)
    ensures DeltaOf(posts, a) == 0
  {
    if posts != [] {
      assert WalletsOf(posts)[0] == posts[0].wallet;
      forall i | 0 <= i < |posts[1..]| ensures WalletsOf(posts[1..])[i] != a {
        assert WalletsOf(posts)[i + 1] == posts[1..][i].wallet;
      }
      NoDeltaOutside(posts[1..], a);
    }
  }

  lemma DeltaIsLocked(task: Task, a: Id)
    requires WalletRow(a) !in Plan(task)
    ensures Delta(task, a) == 0
  {
    match task
    case Decide(op, _, post) =>
      if post.Some? {
        assert Plan(task)[1] == WalletRow(post.value.wallet) && WalletRow(post.value.wallet) in Plan(task);
        assert WalletsOf([post.value]) == [post.value.wallet];
        NoDeltaOutside([post.value], a);
      }
    case Receive(posts) =>
      var ids := SortedDistinct(WalletsOf(posts));
      assert forall i :: 0 <= i < |ids| ==> Plan(task)[i] == WalletRow(ids[i]);
      NoDeltaOutside(posts, a);
    case PayBack(posts) =>
      var ids := InLineOrder(WalletsOf(posts));
      assert forall i :: 0 <= i < |ids| ==> Plan(task)[i] == WalletRow(ids[i]);
      NoDeltaOutside(posts, a);
  }

  /** A commit writes, for every wallet, what is there plus what the request adds to it. */
  lemma CommitAdds(w: World, t: Txn, a: Id)
    requires Current(w, t) && t.outcome.Running? && t.held == |Plan(t.task)| && a in w.balances
    ensures Written(w.balances, t)[a] == w.balances[a] + Delta(t.task, a)
  {
    assert HeldRows(t) == Plan(t.task);
    hide Plan, Delta;
    if a !in t.balances {
      DeltaIsLocked(t.task, a);
    }
  }

  lemma CommitKeepsSerial(start: World, w: World, i: nat)
    requires Consistent(w) && Serial(start, w) && Enabled(w, Commit(i))
    ensures Serial(start, Fire(w, Commit(i)))
  {
    hide Delta, Plan, Sum, Wins, Postings;
    var t, after := w.txns[i], Fire(w, Commit(i));
    assert Current(w, t);
    OneMoreTxn(w.txns, i, t.(outcome := Committed));
    forall a | a in w.balances ensures after.balances[a] == w.balances[a] + Delta(t.task, a) {
      CommitAdds(w, t, a);
    }
    if t.task.Decide? {
      CommitFindsPending(w, i);
    }
  }

  lemma CommitFindsPending(w: World, i: nat)
    ensures Consistent(w) && Enabled(w, Commit(i)) && w.txns[i].task.Decide? ==>
      w.txns[i].task.op < |w.statuses| && w.statuses[w.txns[i].task.op].Pending?
  {
    assert Consistent(w) && i < |w.txns| ==> Current(w, w.txns[i]);
  }

  /** A move that commits nothing changes no total. */
  lemma QuietKeepsSerial(start: World, w: World, i: nat, u: Txn)
    requires Serial(start, w) && i < |w.txns| && u.task == w.txns[i].task
    requires !w.txns[i].outcome.Committed? && !u.outcome.Committed?
    ensures Serial(start, w.(txns := w.txns[i := u]))
  {
    hide Delta, Plan, Sum, Wins, Postings;
    OneMoreTxn(w.txns, i, u);
  }

  lemma FireKeepsSerial(start: World, w: World, m: Move)
    requires Consistent(w) && Serial(start, w)
    ensures Serial(start, Fire(w, m))
  {
    hide Serial, Plan;
    if Enabled(w, m) {
      if m.Commit? {
        CommitKeepsSerial(start, w, m.txn);
      } else {
        QuietKeepsSerial(start, w, m.txn, Fire(w, m).txns[m.txn]);
      }
    }
  }

  lemma {:induction false} RunKeepsSerial(w: World, moves: seq<Move>)
    requires Start(w)
    ensures Serial(w, Run(w, moves))
  {
    if moves == [] {
      StartIsSerial(w);
    } else {
      var before := moves[..|moves| - 1];
      RunKeepsSerial(w, before);
      RunKeepsConsistent(w, before);
      FireKeepsSerial(w, Run(w, before), moves[|moves| - 1]);
    }
  }

  /** However approvals, rejections and cancellations interleave, an operation has at most one
      winner; its history is a valid path to its status; and it has exactly one collaborator
      movement if it is approved and none otherwise. */
  lemma SingleDecision(start: World, moves: seq<Move>, o: nat)
    requires Start(start) && o < |start.statuses|
    ensures var w := Run(start, moves);
      && o < |w.statuses| && |w.history| == |w.movements| == |w.statuses|
      && Sum(Wins(w.txns, o)) == (if w.statuses[o].Pending? then 0 else 1)
      && w.history[o] == (if w.statuses[o].Pending? then [Pending] else [Pending, w.statuses[o]])
      && w.movements[o] == (if w.statuses[o].Approved? then 1 else 0)
  {
    RunKeepsSerial(start, moves);
    RunKeepsConsistent(start, moves);
    assert Decided(Run(start, moves), o);
  }

  /** A request that decided an operation decided it as it stands now. */
  ghost predicate Stands(w: World, i: nat)
    requires i < |w.txns|
  {
    var t := w.txns[i];
    t.outcome.Committed? && t.task.Decide? ==>
      && t.task.op < |w.statuses| && w.statuses[t.task.op] == t.task.verdict && !t.task.verdict.Pending?
  }

  ghost predicate AllStand(w: World) {
    forall i :: 0 <= i < |w.txns| ==> Stands(w, i)
  }

  lemma FireKeepsVerdicts(w: World, m: Move)
    requires Consistent(w) && AllStand(w)
    ensures AllStand(Fire(w, m))
  {
    if Enabled(w, m) {
      assert Current(w, w.txns[m.txn]);
      hide Consistent, Current, Plan, Delta, Blocked, Refused;
      if m.Commit? {
        CommitFindsPending(w, m.txn);
      }
      forall i | 0 <= i < |w.txns| ensures Stands(Fire(w, m), i) {
        assert Stands(w, i);
      }
    }
  }

  /** However requests interleave, the one that decided an operation decided what it became. */
  lemma {:induction false} WinnerDecides(start: World, moves: seq<Move>)
    requires Start(start)
    ensures AllStand(Run(start, moves))
  {
    if moves != [] {
      var before := moves[..|moves| - 1];
      WinnerDecides(start, before);
      RunKeepsConsistent(start, before);
      FireKeepsVerdicts(Run(start, before), moves[|moves| - 1]);
    }
  }

  /** No update is lost: a wallet holds what it held plus what every committed request added. */
  lemma NoLostUpdate(start: World, moves: seq<Move>, a: Id)
    requires Start(start) && a in start.balances
    ensures var w := Run(start, moves);
      a in w.balances && w.balances[a] == start.balances[a] + Sum(Postings(w.txns, a))
  {
    RunKeepsSerial(start, moves);
  }

  ghost predicate Covered(balances: map<Id, int>) {
    forall a :: a in balances ==> balances[a] >= 0
  }

  lemma {:induction false} AffordableStaysCovered(posts: seq<Post>, balances: map<Id, int>, a: Id)
    requires Affordable(posts, balances) && Covered(balances) && a in balances
    ensures balances[a] + DeltaOf(posts, a) >= 0
    decreases |posts|
  {
    if posts != [] {
      var w := posts[0].wallet;
      AffordableStaysCovered(posts[1..], balances[w := balances[w] + posts[0].delta], a);
    }
  }

  lemma FireKeepsCovered(w: World, m: Move)
    requires Consistent(w) && Covered(w.balances)
    ensures Covered(Fire(w, m).balances)
  {
    hide Plan, Affordable, DeltaOf;
    if Enabled(w, m) && m.Commit? {
      var t := w.txns[m.txn];
      assert Current(w, t);
      forall a | a in t.balances ensures t.balances[a] + Delta(t.task, a) >= 0 {
        AffordableStaysCovered(PostsOf(t.task), t.balances, a);
      }
    }
  }

  /** No wallet is ever overdrawn, whatever the interleaving: the test made on the balance that was read
      under the lock still holds when the new balance is written. */
  lemma {:induction false} NoOverdraft(start: World, moves: seq<Move>)
    requires Start(start) && Covered(start.balances)
    ensures Covered(Run(start, moves).balances)
  {
    if moves != [] {
      var before := moves[..|moves| - 1];
      NoOverdraft(start, before);
      RunKeepsConsistent(start, before);
      FireKeepsCovered(Run(start, before), moves[|moves| - 1]);
    }
  }

  // ---- no deadlock -------------------------------------------------------------------------

  ghost predicate AllUpwards(txns: seq<Txn>) {
    forall i :: 0 <= i < |txns| ==> Ordered(txns[i].task)
  }

  /** A request that is waited for and waits itself wants a higher row than the one it holds. */
  lemma WaitsGoUp(w: World, i: nat, j: nat)
    ensures AllUpwards(w.txns) && Waits(w, i, j) && Wanting(w.txns[j]) ==>
      Below(Wanted(w.txns[i]), Wanted(w.txns[j]))
  {
    if AllUpwards(w.txns) && Waits(w, i, j) && Wanting(w.txns[j]) {
      var u := w.txns[j];
      assert Ordered(u.task);
      hide AllUpwards, Plan;
      var k :| 0 <= k < u.held && Plan(u.task)[k] == Wanted(w.txns[i]);
      assert Below(Plan(u.task)[k], Plan(u.task)[u.held]);
    }
  }

  /** Each request of the path waits for the next one. */
  ghost predicate Walk(w: World, path: seq<nat>) {
    forall j, k :: 0 <= j && k == j + 1 && k < |path| ==> Waits(w, path[j], path[k])
  }

  /** The request wants a row. */
  predicate Wants(w: World, i: nat) {
    i < |w.txns| && Wanting(w.txns[i])
  }

  lemma {:induction false} WalksGoUp(w: World, path: seq<nat>)
    requires |path| >= 2
    ensures AllUpwards(w.txns) && Walk(w, path) && Wants(w, path[|path| - 1]) ==>
      Wants(w, path[0]) && Below(Wanted(w.txns[path[0]]), Wanted(w.txns[path[|path| - 1]]))
    decreases |path|
  {
    hide Plan, Ordered, HeldRows;
    if AllUpwards(w.txns) && Walk(w, path) && Wants(w, path[|path| - 1]) {
      assert Waits(w, path[0], path[1]);
      WaitsGoUp(w, path[0], path[1]);
      if |path| > 2 {
        WalkTail(w, path);
        WalksGoUp(w, path[1..]);
      }
    }
  }

  lemma WalkTail(w: World, path: seq<nat>)
    ensures |path| >= 2 && Walk(w, path) ==> Walk(w, path[1..])
  {
    hide Waits;
    if |path| >= 2 && Walk(w, path) {
      forall j, k | 0 <= j && k == j + 1 && k < |path[1..]| ensures Waits(w, path[1..][j], path[1..][k]) {
        assert Waits(w, path[j + 1], path[k + 1]);
      }
    }
  }

  /** The wait-for graph has no cycle. */
  lemma WaitForGraphIsAcyclic(w: World, path: seq<nat>)
    ensures AllUpwards(w.txns) && |path| >= 2 && Walk(w, path) ==> path[0] != path[|path| - 1]
  {
    hide Plan, Ordered, HeldRows;
    if AllUpwards(w.txns) && |path| >= 2 && Walk(w, path) && path[0] == path[|path| - 1] {
      assert Waits(w, path[0], path[1]);
      WalksGoUp(w, path);
    }
  }

  /** Among the first `n` requests that want a row, one that wants a highest one. */
  lemma {:induction false} HighestWanted(w: World, n: nat) returns (top: nat)
    ensures forall i :: 0 <= i < n && Wants(w, i) ==>
      top < n && Wants(w, top) && !Below(Wanted(w.txns[top]), Wanted(w.txns[i]))
  {
    hide Plan;
    top := 0;
    if n > 0 {
      top := HighestWanted(w, n - 1);
      if Wants(w, n - 1) && !(top < n - 1 && Wants(w, top) && !Below(Wanted(w.txns[top]), Wanted(w.txns[n - 1]))) {
        top := n - 1;
      }
    }
  }

  /** Request `j` can take its next lock, commit, or raise because of what it has seen. */
  predicate CanGoOn(w: World, j: nat) {
    && j < |w.txns|
    && (Enabled(w, Acquire(j)) || Enabled(w, Commit(j)) || (Refused(w, w.txns[j]) && Enabled(w, Raise(j))))
  }

  lemma UnblockedCanGoOn(w: World, j: nat)
    requires j < |w.txns| && w.txns[j].outcome.Running? && !Blocked(w, j)
    requires w.txns[j].held <= |Plan(w.txns[j].task)|
    ensures CanGoOn(w, j)
  {
    hide Plan, Blocked;
  }

  /** As long as a request is unfinished, one of them is not blocked, and it can go on. */
  lemma SomeoneCanStep(w: World, i: nat) returns (j: nat)
    requires AllUpwards(w.txns) && (forall k :: 0 <= k < |w.txns| ==> w.txns[k].held <= |Plan(w.txns[k].task)|)
    requires i < |w.txns| && w.txns[i].outcome.Running?
    ensures CanGoOn(w, j) && w.txns[j].outcome.Running? && !Blocked(w, j)
  {
    hide Plan, CanGoOn, Enabled;
    j := i;
    if Blocked(w, i) {
      assert Wants(w, i);
      var h := HighestWanted(w, |w.txns|);
      j := h;
      if Blocked(w, h) {
        var k :| 0 <= k < |w.txns| && Waits(w, h, k);
        j := k;
        if Wanting(w.txns[k]) {
          WaitsGoUp(w, h, k);
        }
      }
    }
    UnblockedCanGoOn(w, j);
  }

  /** Locks still to take, and one step to finish, for every unfinished request. */
  function Steps(txns: seq<Txn>): (r: seq<int>)
    ensures |r| == |txns|
  {
    seq(|txns|, i requires 0 <= i < |txns| => StepsOf(txns[i]))
  }

  function StepsOf(t: Txn): int {
    if t.outcome.Running? then |Plan(t.task)| - t.held + 1 else 0
  }

  lemma EveryMoveIsProgress(w: World, m: Move)
    requires Enabled(w, m) && w.txns[m.txn].held <= |Plan(w.txns[m.txn].task)|
    ensures Sum(Steps(Fire(w, m).txns)) < Sum(Steps(w.txns))
  {
    var i, after := m.txn, Fire(w, m);
    assert Steps(after.txns) == Steps(w.txns)[i := StepsOf(after.txns[i])];
    SumUpdate(Steps(w.txns), i, StepsOf(after.txns[i]));
  }

  ghost predicate AllEnabled(start: World, moves: seq<Move>) {
    forall k :: 0 <= k < |moves| ==> Enabled(Run(start, moves[..k]), moves[k])
  }

  lemma {:induction false} RunsAreBounded(start: World, moves: seq<Move>)
    requires Start(start) && AllEnabled(start, moves)
    ensures |moves| + Sum(Steps(Run(start, moves).txns)) <= Sum(Steps(start.txns))
  {
    if moves != [] {
      var before, last := moves[..|moves| - 1], moves[|moves| - 1];
      forall k | 0 <= k < |before| ensures Enabled(Run(start, before[..k]), before[k]) {
        assert before[..k] == moves[..k];
      }
      RunsAreBounded(start, before);
      RunKeepsConsistent(start, before);
      var w := Run(start, before);
      assert Current(w, w.txns[last.txn]);
      EveryMoveIsProgress(w, last);
    }
  }

  lemma {:induction false} StepsNonNegative(txns: seq<Txn>)
    requires forall i :: 0 <= i < |txns| ==> txns[i].held <= |Plan(txns[i].task)|
    ensures Sum(Steps(txns)) >= 0
  {
    if txns != [] {
      var n := |txns| - 1;
      assert Steps(txns)[..n] == Steps(txns[..n]);
      StepsNonNegative(txns[..n]);
    }
  }

  /** When every request locks upwards, no reachable world is stuck: while a request is unfinished one
      can take its next lock, commit, or raise because of what it has seen; and no run makes more moves
      than there are locks to take and requests to finish. */
  lemma NoDeadlock(start: World, moves: seq<Move>)
    requires Start(start) && AllUpwards(start.txns)
    ensures var w := Run(start, moves);
      && (forall i :: 0 <= i < |w.txns| && w.txns[i].outcome.Running? ==> exists j: nat :: CanGoOn(w, j))
      && (forall path :: |path| >= 2 && Walk(w, path) ==> path[0] != path[|path| - 1])
    ensures AllEnabled(start, moves) ==> |moves| <= Sum(Steps(start.txns))
  {
    var w := Run(start, moves);
    RunKeepsSerial(start, moves);
    RunKeepsConsistent(start, moves);
    assert AllUpwards(w.txns);
    assert forall k :: 0 <= k < |w.txns| ==> Current(w, w.txns[k]);
    forall i | 0 <= i < |w.txns| && w.txns[i].outcome.Running? ensures exists j: nat :: CanGoOn(w, j) {
      var j := SomeoneCanStep(w, i);
    }
    forall path | |path| >= 2 && Walk(w, path) ensures path[0] != path[|path| - 1] {
      WaitForGraphIsAcyclic(w, path);
    }
    if AllEnabled(start, moves) {
      RunsAreBounded(start, moves);
      StepsNonNegative(w.txns);
    }
  }

  // ---- reversals lock in line order --------------------------------------------------------

  /** Some request is unfinished and nothing can move. */
  ghost predicate Stuck(w: World) {
    && (exists i :: 0 <= i < |w.txns| && w.txns[i].outcome.Running?)
    && forall m :: !Enabled(w, m)
  }

  function Begun(task: Task): Txn {
    Txn(task, 0, None, map[], Running)
  }

  /** A reversal and a request that sorts its wallets, neither of which has begun. */
  function Pair(posts: seq<Post>, others: seq<Post>, balances: map<Id, int>): (w: World)
    ensures Start(w)
  {
    World([Begun(PayBack(posts)), Begun(Receive(others))], [], [], [], balances)
  }

  ghost predicate CanGetStuck(posts: seq<Post>, balances: map<Id, int>) {
    exists others: seq<Post>, moves: seq<Move> :: Stuck(Run(Pair(posts, others, balances), moves))
  }

  /** The request that wants the two wallets in ascending order. */
  function Companion(low: Id, high: Id): seq<Post> {
    [Post(low, 1), Post(high, 1)]
  }

  lemma CompanionPlan(low: Id, high: Id)
    requires low < high
    ensures Plan(Receive(Companion(low, high))) == [WalletRow(low), WalletRow(high)]
  {
    assert WalletsOf(Companion(low, high)) == [low, high];
    assert [low, high][1..] == [high] && [high][1..] == [];
    assert SortedDistinct([high]) == [high];
    assert SortedDistinct([low, high]) == [low] + [high];
  }

  /** The companion has its first wallet, and the reversal the first `k` of its own. */
  ghost predicate HalfWay(w: World, posts: seq<Post>, low: Id, high: Id, balances: map<Id, int>, k: nat) {
    && |w.txns| == 2 && w.statuses == [] && w.balances == balances
    && w.txns[0].task == PayBack(posts) && w.txns[0].held == k && w.txns[0].outcome.Running? && w.txns[0].status.None?
    && w.txns[1].task == Receive(Companion(low, high)) && w.txns[1].held == 1 && w.txns[1].outcome.Running?
    && w.txns[1].status.None?
  }

  predicate AllPresent(posts: seq<Post>, balances: map<Id, int>) {
    forall i :: 0 <= i < |posts| ==> posts[i].wallet in balances
  }

  /** None of the first `k` wallets of the reversal is the companion's first one. */
  predicate Avoids(posts: seq<Post>, low: Id, k: nat) {
    var ids := InLineOrder(WalletsOf(posts));
    k <= |ids| && forall i :: 0 <= i < k ==> ids[i] != low
  }

  /** The companion locks its first wallet, then the reversal its first `k`. */
  lemma {:induction false} Advance(posts: seq<Post>, low: Id, high: Id, balances: map<Id, int>, k: nat)
    returns (moves: seq<Move>)
    requires low < high
    ensures low in balances && AllPresent(posts, balances) && Avoids(posts, low, k) ==>
      HalfWay(Run(Pair(posts, Companion(low, high), balances), moves), posts, low, high, balances, k)
  {
    var start := Pair(posts, Companion(low, high), balances);
    CompanionPlan(low, high);
    if k == 0 {
      moves := [Acquire(1)];
      assert moves[..0] == [] && Run(start, []) == start;
      assert HeldRows(start.txns[0]) == [];
      assert low in balances ==> Enabled(start, Acquire(1));
    } else {
      var before := Advance(posts, low, high, balances, k - 1);
      var w := Run(start, before);
      moves := before + [Acquire(0)];
      assert moves[..|before|] == before;
      StepAlong(w, posts, low, high, balances, k - 1);
    }
  }

  lemma PlanOfPayBack(posts: seq<Post>, k: nat)
    ensures var ids := InLineOrder(WalletsOf(posts));
      k < |ids| ==>
        k < |Plan(PayBack(posts))| && Plan(PayBack(posts))[k] == WalletRow(ids[k]) && ids[k] in WalletsOf(posts)
  {
  }

  lemma StepAlong(w: World, posts: seq<Post>, low: Id, high: Id, balances: map<Id, int>, k: nat)
    requires low < high
    ensures var ids := InLineOrder(WalletsOf(posts));
      HalfWay(w, posts, low, high, balances, k) && AllPresent(posts, balances) && k < |ids| && ids[k] != low ==>
        HalfWay(Fire(w, Acquire(0)), posts, low, high, balances, k + 1)
  {
    var ids := InLineOrder(WalletsOf(posts));
    if HalfWay(w, posts, low, high, balances, k) && AllPresent(posts, balances) && k < |ids| && ids[k] != low {
      PlanOfPayBack(posts, k);
      CompanionPlan(low, high);
      assert HeldRows(w.txns[1]) == [WalletRow(low)];
      assert !Waits(w, 0, 1);
      assert Enabled(w, Acquire(0));
    }
  }

  /** The reversal waits for the companion's wallet while it holds the one the companion wants. */
  lemma HalfWayIsStuck(w: World, posts: seq<Post>, balances: map<Id, int>, i: nat, j: nat)
    requires i < j
    ensures var ids := InLineOrder(WalletsOf(posts));
      j < |ids| && ids[j] < ids[i] && HalfWay(w, posts, ids[j], ids[i], balances, j) ==> Stuck(w)
  {
    var ids := InLineOrder(WalletsOf(posts));
    if j < |ids| && ids[j] < ids[i] && HalfWay(w, posts, ids[j], ids[i], balances, j) {
      PlanOfPayBack(posts, i);
      PlanOfPayBack(posts, j);
      CompanionPlan(ids[j], ids[i]);
      assert HeldRows(w.txns[1]) == [WalletRow(ids[j])];
      assert HeldRows(w.txns[0])[i] == WalletRow(ids[i]) && WalletRow(ids[i]) in HeldRows(w.txns[0]);
      assert Waits(w, 0, 1) && Waits(w, 1, 0);
      hide Plan, InLineOrder;
      BothBlocked(w);
    }
  }

  lemma BothBlocked(w: World)
    ensures |w.txns| == 2 && Waits(w, 0, 1) && Waits(w, 1, 0) ==> Stuck(w)
  {
    hide Plan;
    assert |w.txns| == 2 && Waits(w, 0, 1) ==> w.txns[0].outcome.Running?;
  }

  /** A reversal that does not lock upwards can be blocked for good by a request that does. */
  lemma UnorderedCanGetStuck(posts: seq<Post>, balances: map<Id, int>)
    ensures AllPresent(posts, balances) && !Ordered(PayBack(posts)) ==> CanGetStuck(posts, balances)
  {
    if AllPresent(posts, balances) && !Ordered(PayBack(posts)) {
      WhoLocksUpwards(PayBack(posts));
      var ids := InLineOrder(WalletsOf(posts));
      var i, j :| 0 <= i < j < |ids| && ids[i] >= ids[j];
      WalletIsPresent(posts, balances, j);
      var moves := Advance(posts, ids[j], ids[i], balances, j);
      HalfWayIsStuck(Run(Pair(posts, Companion(ids[j], ids[i]), balances), moves), posts, balances, i, j);
    }
  }

  lemma WalletIsPresent(posts: seq<Post>, balances: map<Id, int>, k: nat)
    ensures AllPresent(posts, balances) && k < |InLineOrder(WalletsOf(posts))| ==>
      InLineOrder(WalletsOf(posts))[k] in balances
  {
    if AllPresent(posts, balances) && k < |InLineOrder(WalletsOf(posts))| {
      PlanOfPayBack(posts, k);
      var id := InLineOrder(WalletsOf(posts))[k];
      var i :| 0 <= i < |posts| && WalletsOf(posts)[i] == id;
    }
  }

  /** A reversal can be blocked for good by a request that sorts its wallets exactly when its own lines do
      not first name their wallets in ascending order. */
  lemma ReversalGetsStuckIff(posts: seq<Post>, balances: map<Id, int>)
    requires AllPresent(posts, balances)
    ensures CanGetStuck(posts, balances) <==> !Ascending(InLineOrder(WalletsOf(posts)))
  {
    WhoLocksUpwards(PayBack(posts));
    if Ordered(PayBack(posts)) {
      forall others: seq<Post>, moves: seq<Move> ensures !Stuck(Run(Pair(posts, others, balances), moves)) {
        OrderedPairGoesOn(posts, others, balances, moves);
      }
    } else {
      UnorderedCanGetStuck(posts, balances);
    }
  }

  lemma OrderedPairGoesOn(posts: seq<Post>, others: seq<Post>, balances: map<Id, int>, moves: seq<Move>)
    ensures Ordered(PayBack(posts)) ==> !Stuck(Run(Pair(posts, others, balances), moves))
  {
    hide Plan, Ordered, Refused, Blocked, Run;
    if Ordered(PayBack(posts)) {
      var start := Pair(posts, others, balances);
      var w := Run(start, moves);
      WhoLocksUpwards(Receive(others));
      RunKeepsSerial(start, moves);
      RunKeepsConsistent(start, moves);
      assert AllUpwards(w.txns) && forall k :: 0 <= k < |w.txns| ==> Current(w, w.txns[k]);
      if i :| 0 <= i < |w.txns| && w.txns[i].outcome.Running? {
        var j := SomeoneCanStep(w, i);
      }
    }
  }

  lemma TwoLines(first: Post, second: Post)
    requires first.wallet != second.wallet
    ensures Plan(PayBack([first, second])) == [WalletRow(first.wallet), WalletRow(second.wallet)]
  {
    var ids := [first.wallet, second.wallet];
    assert WalletsOf([first, second]) == ids;
    assert ids[..1] == [first.wallet] && [first.wallet][..0] == [];
    assert InLineOrder([first.wallet]) == [] + [first.wallet];
  }

  /** Two reversals that name the same two wallets in opposite order can block each other for good. */
  lemma OppositeReversalsGetStuck(p: Post, q: Post, balances: map<Id, int>)
    requires p.wallet != q.wallet && p.wallet in balances && q.wallet in balances
    ensures var start := World([Begun(PayBack([p, q])), Begun(PayBack([q, p]))], [], [], [], balances);
      var w := Run(start, [Acquire(0), Acquire(1)]);
      && Start(start) && |w.txns| == 2 && w.txns[0].outcome.Running? && w.txns[1].outcome.Running?
      && forall m :: !Enabled(w, m)
  {
    var start := World([Begun(PayBack([p, q])), Begun(PayBack([q, p]))], [], [], [], balances);
    TwoLines(p, q);
    TwoLines(q, p);
    var moves := [Acquire(0), Acquire(1)];
    assert moves[..1] == [Acquire(0)] && [Acquire(0)][..0] == [];
    var first := Fire(start, Acquire(0));
    assert Enabled(start, Acquire(0));
    assert Enabled(first, Acquire(1));
    var w := Fire(first, Acquire(1));
    assert Run(start, []) == start && Run(start, [Acquire(0)]) == first;
    assert Run(start, moves) == w;
    assert HeldRows(w.txns[0]) == [WalletRow(p.wallet)] && HeldRows(w.txns[1]) == [WalletRow(q.wallet)];
    assert Waits(w, 0, 1) && Waits(w, 1, 0);
  }
}
