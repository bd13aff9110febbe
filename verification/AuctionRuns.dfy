/** What every run of the auction keeps: who wins, when bids are accepted, and where the money goes. */
module AuctionRuns {
  import opened Chain
  import opened AuctionModel

  // ----- The winner -----

  /** `k` is the least bid by price, then time, then arrival. */
  ghost predicate Least(bs: seq<Bid>, k: nat) {
    && k < |bs|
    && (forall i :: 0 <= i < |bs| ==> !Better(bs[i], bs[k]))
    && (forall i :: 0 <= i < k ==> Better(bs[k], bs[i]))
  }

  /** The loop's winner is the least bid, and there is no other. */
  lemma {:induction false} WinnerIsLeast(bs: seq<Bid>, k: nat)
    requires bs != []
    ensures k == WinnerAt(bs) <==> Least(bs, k)
    decreases |bs|
  {
    var n := |bs| - 1;
    if n > 0 {
      var before := WinnerAt(bs[..n]);
      WinnerIsLeast(bs[..n], before);
      assert forall i :: 0 <= i < n ==> bs[..n][i] == bs[i];
    }
    assert Least(bs, WinnerAt(bs));
  }

  ghost predicate InOrder(bs: seq<Bid>) {
    forall i, j :: 0 <= i < j < |bs| ==> bs[i].submittedAt <= bs[j].submittedAt
  }

  /** When bids arrive in time order, the time tie-break never decides. */
  lemma {:induction false} TieBreakNeverFires(bs: seq<Bid>)
    requires bs != [] && InOrder(bs)
    ensures WinnerAt(bs) == CheapestAt(bs)
    decreases |bs|
  {
    var n := |bs| - 1;
    if n > 0 {
      TieBreakNeverFires(bs[..n]);
      assert bs[..n][WinnerAt(bs[..n])].submittedAt <= bs[n].submittedAt;
    }
  }

  // ----- The invariant -----

  /** The bids of one job: from distinct providers, under the ceiling, inside the window, in time order. */
  ghost predicate LawfulBids(j: Job, bs: seq<Bid>, bidders: set<Address>, now: nat) {
    && (j.user == ZERO ==> bs == [])
    && InOrder(bs)
    && (forall i :: 0 <= i < |bs| ==>
          && bs[i].pricePerHour <= j.maxPricePerHour
          && j.depositedAt <= bs[i].submittedAt <= j.depositedAt + BID_WINDOW
          && bs[i].submittedAt <= now)
    && (forall i, k :: 0 <= i < k < |bs| ==> bs[i].provider != bs[k].provider)
    && (forall a :: a in bidders <==> exists i :: 0 <= i < |bs| && bs[i].provider == a)
  }

  ghost predicate BidsLawful(s: State, now: nat, id: Id) {
    LawfulBids(JobAt(s, id), BidsAt(s, id), BiddersAt(s, id), now)
  }

  ghost predicate AllBidsLawful(s: State, now: nat) {
    && (forall id :: BidsLawful(s, now, id))
    && (forall id :: id in s.jobs ==> s.jobs[id].user != ZERO && s.jobs[id].depositedAt <= now)
  }

  lemma LaterBids(j: Job, bs: seq<Bid>, bidders: set<Address>, now: nat, later: nat)
    requires LawfulBids(j, bs, bidders, now) && now <= later
    ensures LawfulBids(j, bs, bidders, later)
  {
  }

  lemma LaterAllBids(s: State, now: nat, later: nat)
    requires AllBidsLawful(s, now) && now <= later
    ensures AllBidsLawful(s, later)
  {
    forall id ensures BidsLawful(s, later, id) {
      assert BidsLawful(s, now, id);
      LaterBids(JobAt(s, id), BidsAt(s, id), BiddersAt(s, id), now, later);
    }
  }

  lemma OneMoreBid(j: Job, bs: seq<Bid>, bidders: set<Address>, now: nat, b: Bid)
    requires LawfulBids(j, bs, bidders, now) && j.user != ZERO && j.depositedAt <= now <= j.depositedAt + BID_WINDOW
    requires b.submittedAt == now && b.pricePerHour <= j.maxPricePerHour && b.provider !in bidders
    ensures LawfulBids(j, bs + [b], bidders + {b.provider}, now)
  {
    var bs' := bs + [b];
    forall a ensures a in bidders + {b.provider} <==> exists i :: 0 <= i < |bs'| && bs'[i].provider == a {
      if a == b.provider {
        assert bs'[|bs|].provider == a;
      } else if a in bidders {
        var i :| 0 <= i < |bs| && bs[i].provider == a;
        assert bs'[i].provider == a;
      }
      assert forall i :: 0 <= i < |bs| ==> bs'[i] == bs[i];
    }
  }

  /** Only the user, the ceiling and the posting time of the job matter to its bids. */
  lemma SameTerms(j: Job, j': Job, bs: seq<Bid>, bidders: set<Address>, now: nat)
    requires LawfulBids(j, bs, bidders, now)
    requires (j'.user == ZERO ==> bs == [])
    requires bs == [] || (j'.maxPricePerHour == j.maxPricePerHour && j'.depositedAt == j.depositedAt)
    ensures LawfulBids(j', bs, bidders, now)
  {
  }

  lemma JobChangeKeepsBids(s: State, s': State, id: Id, j: Job, now: nat)
    requires AllBidsLawful(s, now) && s'.bids == s.bids && s'.hasBid == s.hasBid && s'.jobs == s.jobs[id := j]
    requires j.user != ZERO && j.depositedAt <= now
    requires BidsAt(s, id) == []
          || (j.maxPricePerHour == JobAt(s, id).maxPricePerHour && j.depositedAt == JobAt(s, id).depositedAt)
    ensures AllBidsLawful(s', now)
  {
    forall i ensures BidsLawful(s', now, i) {
      assert BidsLawful(s, now, i);
      SameTerms(JobAt(s, i), JobAt(s', i), BidsAt(s, i), BiddersAt(s, i), now);
    }
  }

  lemma BidKeepsBids(s: State, sender: Account, op: Op, now: nat)
    requires AllBidsLawful(s, now) && op.SubmitBid?
    ensures var p := BeginBid(s, sender, op, now); p.Fail? || AllBidsLawful(p.s, now)
  {
    var p := BeginBid(s, sender, op, now);
    if p.Finish? {
      forall i ensures BidsLawful(p.s, now, i) {
        assert BidsLawful(s, now, i);
        if i == op.id {
          OneMoreBid(JobAt(s, i), BidsAt(s, i), BiddersAt(s, i), now, Bid(sender, op.price, now));
        }
      }
    }
  }

  lemma QuietKeepsBids(s: State, s': State, now: nat)
    requires AllBidsLawful(s, now) && s'.bids == s.bids && s'.hasBid == s.hasBid && s'.jobs == s.jobs
    ensures AllBidsLawful(s', now)
  {
    forall i ensures BidsLawful(s', now, i) {
      assert BidsLawful(s, now, i);
    }
  }

  lemma BeginKeepsBids(s: State, sender: Account, value: nat, op: Op, now: nat)
    requires AllBidsLawful(s, now)
    ensures var p := Begin(s, sender, value, op, now); p.Fail? || AllBidsLawful(p.s, now)
  {
    var p := Begin(s, sender, value, op, now);
    match op
    case SubmitBid(_, _, _) => BidKeepsBids(s, sender, op, now);
    case SetFallbackProvider(_) => if p.Finish? { QuietKeepsBids(s, p.s, now); }
    case TransferOwnership(_) => if p.Finish? { QuietKeepsBids(s, p.s, now); }
    case PostJob(id, _, _, _, _) =>
      assert BidsLawful(s, now, id);
      if p.Finish? { JobChangeKeepsBids(s, p.s, id, p.s.jobs[id], now); }
    case CancelJob(id) => if p.Call? { JobChangeKeepsBids(s, p.s, id, p.s.jobs[id], now); }
    case CloseAuction(id) => if p.Call? { JobChangeKeepsBids(s, p.s, id, p.s.jobs[id], now); }
  }

  // ----- Money -----

  datatype Flow = Flow(deposited: nat, refunded: nat, forwarded: nat)

  function FlowOf(j: seq<Entry>): Flow
    decreases |j|
  {
    if j == [] then Flow(0, 0, 0)
    else
      var f := FlowOf(j[..|j| - 1]);
      match j[|j| - 1]
      case Posted(_, amount) => f.(deposited := f.deposited + amount)
      case Refunded(_, _, amount) => f.(refunded := f.refunded + amount)
      case Forwarded(_, _, amount, _) => f.(forwarded := f.forwarded + amount)
  }

  /** The deposit made for a job. */
  function DepositOf(j: seq<Entry>, id: Id): nat
    decreases |j|
  {
    if j == [] then 0
    else
      var e := j[|j| - 1];
      DepositOf(j[..|j| - 1], id) + if e.Posted? && e.id == id then e.amount else 0
  }

  /** The jobs posted since the balance was last paid out, and what they brought. */
  function Pool(j: seq<Entry>): set<Id>
    decreases |j|
  {
    if j == [] then {}
    else if j[|j| - 1].Posted? then Pool(j[..|j| - 1]) + {j[|j| - 1].id}
    else {}
  }

  function PoolTotal(j: seq<Entry>): nat
    decreases |j|
  {
    if j == [] then 0
    else if j[|j| - 1].Posted? then PoolTotal(j[..|j| - 1]) + j[|j| - 1].amount
    else 0
  }

  lemma OneMoreEntry(j: seq<Entry>, e: Entry)
    ensures (j + [e])[..|j + [e]| - 1] == j
  {
  }

  /** A job is posted once, with a positive deposit. */
  ghost predicate PostedOnce(j: seq<Entry>)
    decreases |j|
  {
    j == []
    || (PostedOnce(j[..|j| - 1])
        && (j[|j| - 1].Posted? ==> j[|j| - 1].amount > 0 && DepositOf(j[..|j| - 1], j[|j| - 1].id) == 0))
  }

  ghost predicate MoneyKept(s: State) {
    && FlowOf(s.journal).deposited == FlowOf(s.journal).refunded + FlowOf(s.journal).forwarded + s.balance
    && s.balance == PoolTotal(s.journal)
    && PostedOnce(s.journal)
    && (forall id :: DepositOf(s.journal, id) > 0 <==> JobAt(s, id).user != ZERO)
    && (forall id :: id in Pool(s.journal) ==> JobAt(s, id).user != ZERO && JobAt(s, id).status == Open)
  }

  lemma PostKeepsMoney(s: State, s': State, id: Id, j: Job, value: nat)
    requires MoneyKept(s) && JobAt(s, id).user == ZERO && j.user != ZERO && j.status == Open && value > 0
    requires s'.jobs == s.jobs[id := j] && s'.journal == s.journal + [Posted(id, value)]
    requires s'.balance == s.balance + value
    ensures MoneyKept(s')
  {
    OneMoreEntry(s.journal, Posted(id, value));
  }

  lemma SettleKeepsMoney(s: State, s': State, id: Id, j: Job, e: Entry)
    requires MoneyKept(s) && JobAt(s, id).user != ZERO && j.user != ZERO
    requires !e.Posted? && e.amount == s.balance
    requires s'.jobs == s.jobs[id := j] && s'.journal == s.journal + [e] && s'.balance == 0
    ensures MoneyKept(s')
  {
    OneMoreEntry(s.journal, e);
  }

  lemma QuietKeepsMoney(s: State, s': State)
    requires MoneyKept(s) && s'.jobs == s.jobs && s'.journal == s.journal && s'.balance == s.balance
    ensures MoneyKept(s')
  {
    assert forall id :: JobAt(s', id) == JobAt(s, id);
  }

  lemma BeginKeepsMoney(s: State, sender: Account, value: nat, op: Op, now: nat)
    requires value <= s.balance && MoneyKept(s.(balance := s.balance - value))
    requires value > 0 ==> op.PostJob?
    ensures var p := Begin(s, sender, value, op, now); p.Fail? || MoneyKept(p.s)
  {
    var p := Begin(s, sender, value, op, now);
    var s0 := s.(balance := s.balance - value);
    if !p.Fail? {
      match op
      case PostJob(id, _, _, _, _) => PostKeepsMoney(s0, p.s, id, p.s.jobs[id], value);
      case CancelJob(id) => SettleKeepsMoney(s0, p.s, id, p.s.jobs[id], p.s.journal[|s.journal|]);
      case CloseAuction(id) => SettleKeepsMoney(s0, p.s, id, p.s.jobs[id], p.s.journal[|s.journal|]);
      case _ => QuietKeepsMoney(s0, p.s);
    }
  }

  ghost predicate Inv(s: State, now: nat) {
    AllBidsLawful(s, now) && MoneyKept(s)
  }

  lemma SameAccounts(s: State, s': State, now: nat)
    requires Inv(s, now)
    requires s' == s.(owner := s'.owner, fallbackProvider := s'.fallbackProvider, locked := s'.locked)
    ensures Inv(s', now)
  {
    forall id ensures BidsLawful(s', now, id) {
      assert BidsLawful(s, now, id);
    }
    assert forall id :: JobAt(s', id) == JobAt(s, id);
  }

  lemma AdmitKeeps(s: State, value: nat, op: Op, now: nat)
    requires Inv(s, now)
    ensures var s0 := Admit(s, value, op); AllBidsLawful(s0, now) && MoneyKept(s0.(balance := s0.balance - value))
  {
    var s0 := Admit(s, value, op);
    forall id ensures BidsLawful(s0, now, id) {
      assert BidsLawful(s, now, id);
    }
    assert forall id :: JobAt(s0, id) == JobAt(s, id);
  }

  lemma EnteredKeeps(s: State, tx: Tx, now: nat)
    requires Inv(s, now) && Enter(s, tx.value, tx.op) == Pass
    ensures var p := Begin(Admit(s, tx.value, tx.op), tx.sender, tx.value, tx.op, now);
            p.Fail? || (Inv(p.s, now) && p.s.locked == (s.locked || Guarded(tx.op)))
  {
    var s0 := Admit(s, tx.value, tx.op);
    AdmitKeeps(s, tx.value, tx.op, now);
    BeginKeepsBids(s0, tx.sender, tx.value, tx.op, now);
    BeginKeepsMoney(s0, tx.sender, tx.value, tx.op, now);
  }

  /** A transaction keeps the invariant, whatever the paid party calls back. */
  lemma {:induction false} ExecKeeps(s: State, tx: Tx, now: nat)
    requires Inv(s, now)
    ensures Inv(After(s, Exec(s, tx, now)), now) && After(s, Exec(s, tx, now)).locked == s.locked
    decreases tx
  {
    if Enter(s, tx.value, tx.op) == Pass {
      EnteredKeeps(s, tx, now);
      match Begin(Admit(s, tx.value, tx.op), tx.sender, tx.value, tx.op, now)
      case Fail(_) =>
      case Finish(s1) => SameAccounts(s1, s1.(locked := s.locked), now);
      case Call(s1) =>
        HandoverKeeps(s1, tx.callee.calls, now);
        var h := Handover(s1, tx.callee.calls, now);
        SameAccounts(h, h.(locked := s.locked), now);
    }
  }

  lemma {:induction false} HandoverKeeps(s: State, calls: seq<Tx>, now: nat)
    requires Inv(s, now)
    ensures Inv(Handover(s, calls, now), now) && Handover(s, calls, now).locked == s.locked
    decreases calls
  {
    if calls != [] {
      ExecKeeps(s, calls[0], now);
      HandoverKeeps(After(s, Exec(s, calls[0], now)), calls[1..], now);
    }
  }

  /** Block timestamps never go back, and start no earlier than `from`. */
  ghost predicate Clocked(txs: seq<Timed>, from: nat)
    decreases |txs|
  {
    txs == [] || (from <= txs[0].now && Clocked(txs[1..], txs[0].now))
  }

  function EndOf(txs: seq<Timed>, from: nat): nat {
    if txs == [] then from else txs[|txs| - 1].now
  }

  lemma {:induction false} InvInEveryRun(s: State, txs: seq<Timed>, from: nat)
    requires Inv(s, from) && Clocked(txs, from)
    ensures Inv(Run(s, txs), EndOf(txs, from))
    decreases |txs|
  {
    if txs != [] {
      var t := txs[0].now;
      LaterAllBids(s, from, t);
      ExecKeeps(s, txs[0].tx, t);
      InvInEveryRun(After(s, Exec(s, txs[0].tx, t)), txs[1..], t);
      assert EndOf(txs, from) == EndOf(txs[1..], t);
    }
  }

  lemma InitInv(owner: Account, fallbackProvider: Address, now: nat)
    ensures Inv(Init(owner, fallbackProvider), now)
  {
  }

  /** In every reachable state `closeAuction` picks the bid that `lowestBid` reports: the least one by price,
      then time, then arrival; it is under the ceiling and its bidder has no other bid. */
  lemma WinnerInEveryRun(owner: Account, fallbackProvider: Address, txs: seq<Timed>, id: Id)
    requires Clocked(txs, 0)
    ensures var bs := BidsAt(Run(Init(owner, fallbackProvider), txs), id);
            bs != [] ==>
              && WinnerAt(bs) == CheapestAt(bs)
              && Least(bs, WinnerAt(bs))
              && bs[WinnerAt(bs)].pricePerHour <= JobAt(Run(Init(owner, fallbackProvider), txs), id).maxPricePerHour
              && (forall i :: 0 <= i < |bs| && i != WinnerAt(bs) ==> bs[i].provider != bs[WinnerAt(bs)].provider)
  {
    InitInv(owner, fallbackProvider, 0);
    InvInEveryRun(Init(owner, fallbackProvider), txs, 0);
    var s := Run(Init(owner, fallbackProvider), txs);
    var bs := BidsAt(s, id);
    assert BidsLawful(s, EndOf(txs, 0), id);
    if bs != [] {
      TieBreakNeverFires(bs);
      WinnerIsLeast(bs, WinnerAt(bs));
    }
  }

  /** ETH in = refunded + forwarded + balance, and the balance is what was posted since the last payout. */
  lemma MoneyInEveryRun(owner: Account, fallbackProvider: Address, txs: seq<Timed>)
    requires Clocked(txs, 0)
    ensures var s := Run(Init(owner, fallbackProvider), txs); var f := FlowOf(s.journal);
            && f.deposited == f.refunded + f.forwarded + s.balance
            && s.balance == PoolTotal(s.journal)
  {
    InitInv(owner, fallbackProvider, 0);
    InvInEveryRun(Init(owner, fallbackProvider), txs, 0);
  }

  // ----- How a job ages -----

  /** A posted job keeps its terms; once awarded or cancelled it keeps everything; and past its window it keeps
      its bids. */
  ghost predicate Ages(s: State, s': State, id: Id, now: nat) {
    var j, j' := JobAt(s, id), JobAt(s', id);
    j.user != ZERO ==>
      && j' == j.(status := j'.status, winningProvider := j'.winningProvider,
                  winningRatePerSecond := j'.winningRatePerSecond)
      && (j.status != Open ==> j' == j)
      && (now > j.depositedAt + BID_WINDOW ==> BidsAt(s', id) == BidsAt(s, id) && BiddersAt(s', id) == BiddersAt(s, id))
  }

  lemma BidAges(s: State, sender: Account, op: Op, now: nat, id: Id)
    requires op.SubmitBid?
    ensures var p := BeginBid(s, sender, op, now); p.Fail? || Ages(s, p.s, id, now)
  {
  }

  lemma PostAges(s: State, sender: Account, value: nat, op: Op, now: nat, id: Id)
    requires op.PostJob?
    ensures var p := BeginPost(s, sender, value, op, now); p.Fail? || Ages(s, p.s, id, now)
  {
  }

  lemma CancelAges(s: State, sender: Account, job: Id, now: nat, id: Id)
    ensures var p := BeginCancel(s, sender, job, now); p.Fail? || Ages(s, p.s, id, now)
  {
  }

  lemma CloseAges(s: State, job: Id, now: nat, id: Id)
    ensures var p := BeginClose(s, job, now); p.Fail? || Ages(s, p.s, id, now)
  {
  }

  lemma BeginAges(s: State, sender: Account, value: nat, op: Op, now: nat, id: Id)
    ensures var p := Begin(s, sender, value, op, now); p.Fail? || Ages(s, p.s, id, now)
  {
    match op
    case PostJob(_, _, _, _, _) => PostAges(s, sender, value, op, now, id);
    case SubmitBid(_, _, _) => BidAges(s, sender, op, now, id);
    case CancelJob(job) => CancelAges(s, sender, job, now, id);
    case CloseAuction(job) => CloseAges(s, job, now, id);
    case _ =>
  }

  lemma AgesTransitive(s: State, s1: State, s2: State, id: Id, now: nat)
    requires Ages(s, s1, id, now) && Ages(s1, s2, id, now)
    ensures Ages(s, s2, id, now)
  {
  }

  lemma SameAges(s: State, s': State, id: Id, now: nat)
    requires s'.jobs == s.jobs && s'.bids == s.bids && s'.hasBid == s.hasBid
    ensures Ages(s, s', id, now)
  {
  }

  lemma {:induction false} ExecAges(s: State, tx: Tx, now: nat, id: Id)
    ensures Ages(s, After(s, Exec(s, tx, now)), id, now)
    decreases tx
  {
    if Enter(s, tx.value, tx.op) == Pass {
      var s0 := Admit(s, tx.value, tx.op);
      SameAges(s, s0, id, now);
      BeginAges(s0, tx.sender, tx.value, tx.op, now, id);
      match Begin(s0, tx.sender, tx.value, tx.op, now)
      case Fail(_) => SameAges(s, s, id, now);
      case Finish(s1) =>
        AgesTransitive(s, s0, s1, id, now);
        SameAges(s1, s1.(locked := s.locked), id, now);
      case Call(s1) =>
        AgesTransitive(s, s0, s1, id, now);
        HandoverAges(s1, tx.callee.calls, now, id);
        var h := Handover(s1, tx.callee.calls, now);
        AgesTransitive(s, s1, h, id, now);
        SameAges(h, h.(locked := s.locked), id, now);
    }
  }

  lemma {:induction false} HandoverAges(s: State, calls: seq<Tx>, now: nat, id: Id)
    ensures Ages(s, Handover(s, calls, now), id, now)
    decreases calls
  {
    if calls != [] {
      var s1 := After(s, Exec(s, calls[0], now));
      ExecAges(s, calls[0], now, id);
      HandoverAges(s1, calls[1..], now, id);
      AgesTransitive(s, s1, Handover(s1, calls[1..], now), id, now);
    }
  }

  lemma EarlierAges(s: State, s': State, id: Id, now: nat, later: nat)
    requires Ages(s, s', id, later) && now <= later
    ensures Ages(s, s', id, now)
  {
  }

  lemma {:induction false} RunAges(s: State, txs: seq<Timed>, from: nat, id: Id)
    requires Clocked(txs, from)
    ensures Ages(s, Run(s, txs), id, from)
    decreases |txs|
  {
    if txs != [] {
      var t := txs[0].now;
      var s1 := After(s, Exec(s, txs[0].tx, t));
      ExecAges(s, txs[0].tx, t, id);
      RunAges(s1, txs[1..], t, id);
      AgesTransitive(s, s1, Run(s1, txs[1..]), id, t);
      EarlierAges(s, Run(s1, txs[1..]), id, from, t);
    }
  }

  /** Once a job's window has closed, no run changes its bids any more. */
  lemma BidsFreeze(s: State, txs: seq<Timed>, from: nat, id: Id)
    requires JobAt(s, id).user != ZERO && from > JobAt(s, id).depositedAt + BID_WINDOW && Clocked(txs, from)
    ensures BidsAt(Run(s, txs), id) == BidsAt(s, id)
  {
    RunAges(s, txs, from, id);
  }

  /** An awarded or cancelled job is final. */
  lemma SettledJobIsFinal(s: State, txs: seq<Timed>, from: nat, id: Id)
    requires JobAt(s, id).user != ZERO && JobAt(s, id).status != Open && Clocked(txs, from)
    ensures JobAt(Run(s, txs), id) == JobAt(s, id)
  {
    RunAges(s, txs, from, id);
  }

  lemma {:induction false} EndIsLater(txs: seq<Timed>, from: nat)
    requires Clocked(txs, from)
    ensures from <= EndOf(txs, from)
    decreases |txs|
  {
    if txs != [] {
      EndIsLater(txs[1..], txs[0].now);
      assert EndOf(txs, from) == EndOf(txs[1..], txs[0].now);
    }
  }

  // ----- Whose deposit a settlement moves -----

  lemma {:induction false} EmptyPool(j: seq<Entry>)
    requires PostedOnce(j)
    ensures PoolTotal(j) == 0 <==> Pool(j) == {}
    decreases |j|
  {
    if j != [] && j[|j| - 1].Posted? {
      assert j[|j| - 1].id in Pool(j);
    }
  }

  /** A pooled job's deposit is the whole pool exactly when no other job is pooled. */
  lemma {:induction false} PoolShare(j: seq<Entry>, id: Id)
    requires PostedOnce(j) && id in Pool(j)
    ensures PoolTotal(j) >= DepositOf(j, id) > 0
    ensures PoolTotal(j) == DepositOf(j, id) <==> Pool(j) == {id}
    decreases |j|
  {
    var init, e := j[..|j| - 1], j[|j| - 1];
    if e.id == id {
      EmptyPool(init);
      if id in Pool(init) {
        PooledHasDeposit(init, id);
      }
    } else {
      PoolShare(init, id);
      assert e.id in Pool(j);
    }
  }

  lemma {:induction false} PooledHasDeposit(j: seq<Entry>, id: Id)
    requires PostedOnce(j) && id in Pool(j)
    ensures DepositOf(j, id) > 0
    decreases |j|
  {
    if j[|j| - 1].id != id {
      PooledHasDeposit(j[..|j| - 1], id);
    }
  }

  /** What a settlement pays out: the amount of the entry it posts. */
  function Moved(s: State, s': State): nat
    requires |s'.journal| > |s.journal| && !s'.journal[|s.journal|].Posted?
  {
    s'.journal[|s.journal|].amount
  }

  /** Called-back parties can bid and change the fallback, and that moves no money and posts no job. */
  lemma LockedMovesNothing(s: State, tx: Tx, now: nat)
    requires s.locked
    ensures var s' := After(s, Exec(s, tx, now));
            s'.balance == s.balance && s'.journal == s.journal && s'.jobs == s.jobs && s'.locked
  {
  }

  lemma {:induction false} HandoverMovesNothing(s: State, calls: seq<Tx>, now: nat)
    requires s.locked
    ensures var s' := Handover(s, calls, now);
            s'.balance == s.balance && s'.journal == s.journal && s'.jobs == s.jobs && s'.locked
    decreases |calls|
  {
    if calls != [] {
      LockedMovesNothing(s, calls[0], now);
      HandoverMovesNothing(After(s, Exec(s, calls[0], now)), calls[1..], now);
    }
  }

  /** A cancel or a close empties the contract: it moves everything posted since the last payout. */
  lemma SettlementMovesPool(s: State, tx: Tx, now: nat)
    requires Inv(s, now) && !s.locked && (tx.op.CancelJob? || tx.op.CloseAuction?) && Exec(s, tx, now).Done?
    ensures var s' := Exec(s, tx, now).s;
            && |s'.journal| == |s.journal| + 1 && !s'.journal[|s.journal|].Posted?
            && s'.journal[|s.journal|].id == tx.op.id
            && Moved(s, s') == PoolTotal(s.journal) && s'.balance == 0
            && JobAt(s, tx.op.id).status == Open && JobAt(s', tx.op.id).status != Open
            && s'.jobs.Keys == s.jobs.Keys
            && (forall id :: id != tx.op.id ==> JobAt(s', id) == JobAt(s, id))
  {
    var s0 := Admit(s, tx.value, tx.op);
    var p := Begin(s0, tx.sender, tx.value, tx.op, now);
    HandoverMovesNothing(p.s, tx.callee.calls, now);
  }

  /** A cancel pays the job's user, and only that user can cancel: not during the window once there is a bid. */
  lemma CancelRefundsUser(s: State, tx: Tx, now: nat)
    requires Inv(s, now) && !s.locked && tx.op.CancelJob? && Exec(s, tx, now).Done?
    ensures var j := JobAt(s, tx.op.id); var s' := Exec(s, tx, now).s;
            && j.user == tx.sender && JobAt(s', tx.op.id) == j.(status := Cancelled)
            && (BidsAt(s, tx.op.id) == [] || now > j.depositedAt + BID_WINDOW)
            && s'.journal == s.journal + [Refunded(tx.op.id, tx.sender, PoolTotal(s.journal))]
  {
    var s0 := Admit(s, tx.value, tx.op);
    var p := Begin(s0, tx.sender, tx.value, tx.op, now);
    HandoverMovesNothing(p.s, tx.callee.calls, now);
  }

  /** A close awards the least bid, or the fallback at the ceiling if nobody bid, and only after the window. */
  lemma CloseAwardsLeast(s: State, tx: Tx, now: nat)
    requires Inv(s, now) && !s.locked && tx.op.CloseAuction? && Exec(s, tx, now).Done?
    ensures var id := tx.op.id; var j := JobAt(s, id); var bs := BidsAt(s, id);
            var s' := Exec(s, tx, now).s; var j' := JobAt(s', id);
            && now > j.depositedAt + BID_WINDOW && j'.status == Awarded
            && s'.journal == s.journal
                 + [Forwarded(id, j'.winningProvider, PoolTotal(s.journal), j'.winningRatePerSecond)]
            && (bs == [] ==> j'.winningProvider == s.fallbackProvider != ZERO
                             && j'.winningRatePerSecond == Max(j.maxPricePerHour / 3600, 1))
            && (forall k: nat :: Least(bs, k) ==> j'.winningProvider == bs[k].provider
                                                  && j'.winningRatePerSecond == Max(bs[k].pricePerHour / 3600, 1))
  {
    var s0 := Admit(s, tx.value, tx.op);
    var p := Begin(s0, tx.sender, tx.value, tx.op, now);
    HandoverMovesNothing(p.s, tx.callee.calls, now);
    var bs := BidsAt(s, tx.op.id);
    forall k: nat | Least(bs, k) ensures k == WinnerAt(bs) {
      WinnerIsLeast(bs, k);
    }
  }

  /** What `id` itself, and what the others, put into the balance since the last payout. */
  function OwnPart(j: seq<Entry>, id: Id): nat
    decreases |j|
  {
    if j == [] || !j[|j| - 1].Posted? then 0
    else OwnPart(j[..|j| - 1], id) + if j[|j| - 1].id == id then j[|j| - 1].amount else 0
  }

  function OthersPart(j: seq<Entry>, id: Id): nat
    decreases |j|
  {
    if j == [] || !j[|j| - 1].Posted? then 0
    else OthersPart(j[..|j| - 1], id) + if j[|j| - 1].id == id then 0 else j[|j| - 1].amount
  }

  lemma {:induction false} PoolSplits(j: seq<Entry>, id: Id)
    requires PostedOnce(j)
    ensures PoolTotal(j) == OwnPart(j, id) + OthersPart(j, id)
    ensures OwnPart(j, id) == if id in Pool(j) then DepositOf(j, id) else 0
    ensures OthersPart(j, id) == 0 <==> Pool(j) <= {id}
    decreases |j|
  {
    if j != [] && j[|j| - 1].Posted? {
      var init, e := j[..|j| - 1], j[|j| - 1];
      PoolSplits(init, id);
      assert e.id in Pool(j);
      if e.id == id && id in Pool(init) {
        PooledHasDeposit(init, id);
      }
    }
  }

  /** A settlement pays out what its own job and what other jobs posted since the last payout. That is its own
      deposit and nothing else if and only if its job, and no other, was posted since then. */
  lemma SettlementMovesOwnDepositIff(s: State, tx: Tx, now: nat)
    requires Inv(s, now) && !s.locked && (tx.op.CancelJob? || tx.op.CloseAuction?) && Exec(s, tx, now).Done?
    ensures |Exec(s, tx, now).s.journal| > |s.journal| && !Exec(s, tx, now).s.journal[|s.journal|].Posted?
    ensures var own, others := OwnPart(s.journal, tx.op.id), OthersPart(s.journal, tx.op.id);
            && Moved(s, Exec(s, tx, now).s) == own + others
            && (own == DepositOf(s.journal, tx.op.id) && others == 0 <==> Pool(s.journal) == {tx.op.id})
  {
    SettlementMovesPool(s, tx, now);
    PoolSplits(s.journal, tx.op.id);
    assert JobAt(s, tx.op.id).user != ZERO;
  }

  /** Of a job that is still in the pool the amount alone tells: it is the deposit exactly when nobody else is. */
  lemma PooledAmountTells(s: State, tx: Tx, now: nat)
    requires Inv(s, now) && !s.locked && (tx.op.CancelJob? || tx.op.CloseAuction?) && Exec(s, tx, now).Done?
    requires tx.op.id in Pool(s.journal)
    ensures |Exec(s, tx, now).s.journal| > |s.journal| && !Exec(s, tx, now).s.journal[|s.journal|].Posted?
    ensures Moved(s, Exec(s, tx, now).s) == DepositOf(s.journal, tx.op.id) <==> Pool(s.journal) == {tx.op.id}
  {
    SettlementMovesPool(s, tx, now);
    PoolShare(s.journal, tx.op.id);
  }

  ghost predicate AtMostOneOpen(s: State) {
    forall i, k :: i in s.jobs && k in s.jobs && s.jobs[i].status == Open && s.jobs[k].status == Open ==> i == k
  }

  /** At every point of the run at most one job is open. */
  ghost predicate OneAtATime(s: State, txs: seq<Timed>)
    decreases |txs|
  {
    && AtMostOneOpen(s)
    && (txs == [] || OneAtATime(After(s, Exec(s, txs[0].tx, txs[0].now)), txs[1..]))
  }

  /** The open job, if there is one, is all the pool. */
  ghost predicate Solo(s: State) {
    forall id :: id in s.jobs && s.jobs[id].status == Open ==> Pool(s.journal) == {id}
  }

  lemma PostOpensAnother(s: State, tx: Tx, now: nat)
    requires Inv(s, now) && tx.op.PostJob? && Exec(s, tx, now).Done?
    ensures var s' := Exec(s, tx, now).s;
            && tx.op.id in s'.jobs && s'.jobs[tx.op.id].status == Open
            && forall id :: id in Pool(s.journal) ==> id in s'.jobs && s'.jobs[id].status == Open && id != tx.op.id
  {
    forall id | id in Pool(s.journal)
      ensures var s' := Exec(s, tx, now).s; id in s'.jobs && s'.jobs[id].status == Open && id != tx.op.id
    {
      assert JobAt(s, id).user != ZERO && JobAt(s, id).status == Open;
    }
  }

  lemma NoOtherOpen(s: State, id: Id, others: set<Id>)
    requires AtMostOneOpen(s) && id in s.jobs && s.jobs[id].status == Open
    requires forall i :: i in others ==> i in s.jobs && s.jobs[i].status == Open && i != id
    ensures others == {}
  {
  }

  lemma SoloSettle(s: State, tx: Tx, now: nat)
    requires Inv(s, now) && !s.locked && AtMostOneOpen(s) && (tx.op.CancelJob? || tx.op.CloseAuction?)
    requires Exec(s, tx, now).Done?
    ensures Solo(Exec(s, tx, now).s)
  {
    SettlementMovesPool(s, tx, now);
    var s' := Exec(s, tx, now).s;
    forall id | id in s'.jobs ensures s'.jobs[id].status != Open {
      assert id != tx.op.id ==> JobAt(s', id) == JobAt(s, id);
    }
  }

  lemma SoloPost(s: State, tx: Tx, now: nat)
    requires Inv(s, now) && tx.op.PostJob? && Exec(s, tx, now).Done? && AtMostOneOpen(Exec(s, tx, now).s)
    ensures Solo(Exec(s, tx, now).s)
  {
    OneMoreEntry(s.journal, Posted(tx.op.id, tx.value));
    PostOpensAnother(s, tx, now);
    NoOtherOpen(Exec(s, tx, now).s, tx.op.id, Pool(s.journal));
  }

  lemma SoloStep(s: State, tx: Tx, now: nat)
    requires Inv(s, now) && !s.locked && Solo(s) && AtMostOneOpen(s) && AtMostOneOpen(After(s, Exec(s, tx, now)))
    ensures Solo(After(s, Exec(s, tx, now)))
  {
    if Exec(s, tx, now).Done? {
      match tx.op
      case CancelJob(_) => SoloSettle(s, tx, now);
      case CloseAuction(_) => SoloSettle(s, tx, now);
      case PostJob(_, _, _, _, _) => SoloPost(s, tx, now);
      case _ =>
        assert Exec(s, tx, now).s.jobs == s.jobs && Exec(s, tx, now).s.journal == s.journal;
    }
  }

  /** In a run with at most one job open at a time, the open job's deposit is the whole balance, so
      cancelling or closing it moves exactly that deposit. */
  lemma {:induction false} OneJobAtATime(s: State, txs: seq<Timed>, from: nat, id: Id)
    requires Inv(s, from) && !s.locked && Solo(s) && Clocked(txs, from) && OneAtATime(s, txs)
    requires JobAt(Run(s, txs), id).user != ZERO && JobAt(Run(s, txs), id).status == Open
    ensures Run(s, txs).balance == DepositOf(Run(s, txs).journal, id)
    decreases |txs|
  {
    if txs == [] {
      PoolShare(s.journal, id);
    } else {
      var t := txs[0].now;
      LaterAllBids(s, from, t);
      ExecKeeps(s, txs[0].tx, t);
      SoloStep(s, txs[0].tx, t);
      OneJobAtATime(After(s, Exec(s, txs[0].tx, t)), txs[1..], t, id);
    }
  }

  lemma {:induction false} RunKeepsLock(s: State, txs: seq<Timed>, from: nat)
    requires Inv(s, from) && Clocked(txs, from)
    ensures Run(s, txs).locked == s.locked
    decreases |txs|
  {
    if txs != [] {
      var t := txs[0].now;
      LaterAllBids(s, from, t);
      ExecKeeps(s, txs[0].tx, t);
      RunKeepsLock(After(s, Exec(s, txs[0].tx, t)), txs[1..], t);
    }
  }

  lemma SettlesOpenJob(s: State, tx: Tx, now: nat)
    requires !s.locked && (tx.op.CancelJob? || tx.op.CloseAuction?) && Exec(s, tx, now).Done?
    ensures JobAt(s, tx.op.id).user != ZERO && JobAt(s, tx.op.id).status == Open
  {
  }

  /** From deployment on, as long as at most one job is open at a time, every cancel and every close moves
      exactly the deposit of its job. */
  lemma OneJobMovesItsDeposit(owner: Account, fallbackProvider: Address, txs: seq<Timed>, tx: Tx, now: nat)
    requires Clocked(txs, 0) && EndOf(txs, 0) <= now && OneAtATime(Init(owner, fallbackProvider), txs)
    requires (tx.op.CancelJob? || tx.op.CloseAuction?) && Exec(Run(Init(owner, fallbackProvider), txs), tx, now).Done?
    ensures var s := Run(Init(owner, fallbackProvider), txs); var s' := Exec(s, tx, now).s;
            && |s'.journal| == |s.journal| + 1 && !s'.journal[|s.journal|].Posted?
            && Moved(s, s') == DepositOf(s.journal, tx.op.id) && s'.balance == 0
  {
    var s0 := Init(owner, fallbackProvider);
    var s := Run(s0, txs);
    InitInv(owner, fallbackProvider, 0);
    InvInEveryRun(s0, txs, 0);
    RunKeepsLock(s0, txs, 0);
    LaterAllBids(s, EndOf(txs, 0), now);
    SettlesOpenJob(s, tx, now);
    OneJobAtATime(s0, txs, 0, tx.op.id);
    SettlementMovesPool(s, tx, now);
  }

  /** With two jobs open the promise fails: cancelling the first pays its user both deposits. */
  lemma TwoOpenJobsPool(owner: Account, alice: Account, bob: Account)
    ensures var idle := Callee(true, []);
            var s0 := Init(owner, ZERO);
            var s1 := After(s0, Exec(s0, Tx(alice, 5, PostJob(1, 100, 1, 1, 60), idle), 10));
            var s2 := After(s1, Exec(s1, Tx(bob, 7, PostJob(2, 100, 1, 1, 60), idle), 11));
            var s3 := After(s2, Exec(s2, Tx(alice, 0, CancelJob(1), idle), 12));
            s3.journal == [Posted(1, 5), Posted(2, 7), Refunded(1, alice, 12)] && s3.balance == 0
            && JobAt(s3, 2).status == Open
  {
  }
}
