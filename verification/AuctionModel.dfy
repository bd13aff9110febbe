/** JobAuction as a transition system, with callbacks while it pays out. */
module AuctionModel {
  import opened Chain
  import Registry = RegistryModel
  import RegistryContract = ProviderRegistryContract

  const BID_WINDOW: nat := 30

  datatype JobStatus = Open | Awarded | Cancelled

  datatype Job = Job(user: Address, depositedAt: nat, maxPricePerHour: nat, ramMb: nat, cpuCores: nat,
                     durationSeconds: nat, status: JobStatus, winningProvider: Address, winningRatePerSecond: nat)

  const NO_JOB := Job(ZERO, 0, 0, 0, 0, 0, Open, ZERO, 0)

  datatype Bid = Bid(provider: Address, pricePerHour: nat, submittedAt: nat)

  /** Movements of ETH: deposits in, refunds to users, and deposits forwarded to the escrow. */
  datatype Entry =
    | Posted(id: Id, amount: nat)
    | Refunded(id: Id, to: Address, amount: nat)
    | Forwarded(id: Id, provider: Address, amount: nat, rate: nat)

  datatype State = State(
    balance: nat,
    owner: Address,
    fallbackProvider: Address,
    jobs: map<Id, Job>,
    bids: map<Id, seq<Bid>>,
    hasBid: map<Id, set<Address>>,
    locked: bool,
    journal: seq<Entry>)

  datatype Error =
    | ReentrantCall | NotPayable | NotOwner | JobAlreadyExists | JobNotFound | WrongStatus | BidWindowOpen
    | BidWindowClosed | DuplicateBid | BidAboveCeiling | NotJobOwner | InsufficientStake | ZeroDeposit
    | ZeroDuration | NoFallbackProvider | CallFailed | UndecodableListing

  /** `listed` is what the registry's `getActiveProviders` returns to a bid. */
  datatype Op =
    | PostJob(id: Id, maxPricePerHour: nat, ramMb: nat, cpuCores: nat, durationSeconds: nat)
    | CancelJob(id: Id)
    | SubmitBid(id: Id, price: nat, listed: seq<Registry.Provider>)
    | CloseAuction(id: Id)
    | SetFallbackProvider(fallbackProvider: Address)
    | TransferOwnership(newOwner: Address)

  /** The party paid: the user of a cancelled job, or the escrow and whoever it calls. */
  datatype Callee = Callee(accepts: bool, calls: seq<Tx>)

  datatype Tx = Tx(sender: Account, value: nat, op: Op, callee: Callee)

  datatype Phase = Fail(error: Error) | Finish(s: State) | Call(s: State)

  datatype Outcome = Reverted(error: Error) | Done(s: State)

  function Init(owner: Account, fallbackProvider: Address): State {
    State(0, owner, fallbackProvider, map[], map[], map[], false, [])
  }

  function JobAt(s: State, id: Id): Job {
    if id in s.jobs then s.jobs[id] else NO_JOB
  }

  function BidsAt(s: State, id: Id): seq<Bid> {
    if id in s.bids then s.bids[id] else []
  }

  function BiddersAt(s: State, id: Id): set<Address> {
    if id in s.hasBid then s.hasBid[id] else {}
  }

  /** The order of `closeAuction`: price, then time. */
  predicate Better(b: Bid, w: Bid) {
    b.pricePerHour < w.pricePerHour || (b.pricePerHour == w.pricePerHour && b.submittedAt < w.submittedAt)
  }

  /** The position of `closeAuction`'s winner. */
  function WinnerAt(bs: seq<Bid>): (k: nat)
    requires bs != []
    ensures k < |bs|
    decreases |bs|
  {
    var n := |bs| - 1;
    if n == 0 then 0
    else
      var k := WinnerAt(bs[..n]);
      if Better(bs[n], bs[k]) then n else k
  }

  /** The position of the bid `lowestBid` reports. */
  function CheapestAt(bs: seq<Bid>): (k: nat)
    requires bs != []
    ensures k < |bs|
    decreases |bs|
  {
    var n := |bs| - 1;
    if n == 0 then 0
    else
      var k := CheapestAt(bs[..n]);
      if bs[n].pricePerHour < bs[k].pricePerHour then n else k
  }

  /** Wei per hour to wei per second, at least one. */
  function RateOf(pricePerHour: nat): nat {
    if pricePerHour / 3600 == 0 then 1 else pricePerHour / 3600
  }

  predicate Guarded(op: Op) {
    op.PostJob? || op.CancelJob? || op.CloseAuction?
  }

  function BeginPost(s: State, sender: Account, value: nat, op: Op, now: nat): Phase
    requires op.PostJob?
  {
    if value == 0 then Fail(ZeroDeposit)
    else if op.durationSeconds == 0 then Fail(ZeroDuration)
    else if JobAt(s, op.id).user != ZERO then Fail(JobAlreadyExists)
    else Finish(s.(jobs := s.jobs[op.id := Job(sender, now, op.maxPricePerHour, op.ramMb, op.cpuCores,
                                               op.durationSeconds, Open, ZERO, 0)],
                   journal := s.journal + [Posted(op.id, value)]))
  }

  function BeginCancel(s: State, sender: Account, id: Id, now: nat): Phase {
    var j := JobAt(s, id);
    if j.user == ZERO then Fail(JobNotFound)
    else if j.status != Open then Fail(WrongStatus)
    else if sender != j.user then Fail(NotJobOwner)
    else if now <= j.depositedAt + BID_WINDOW && |BidsAt(s, id)| > 0 then Fail(BidWindowOpen)
    else Call(s.(jobs := s.jobs[id := j.(status := Cancelled)], balance := 0,
                 journal := s.journal + [Refunded(id, j.user, s.balance)]))
  }

  function BeginBid(s: State, sender: Account, op: Op, now: nat): Phase
    requires op.SubmitBid?
  {
    var j := JobAt(s, op.id);
    if j.user == ZERO then Fail(JobNotFound)
    else if j.status != Open then Fail(WrongStatus)
    else if now > j.depositedAt + BID_WINDOW then Fail(BidWindowClosed)
    else if sender in BiddersAt(s, op.id) then Fail(DuplicateBid)
    else if op.price > j.maxPricePerHour then Fail(BidAboveCeiling)
    else if !RegistryContract.AllDecode(op.listed) then Fail(UndecodableListing)
    else if !StakeSuffices(op.listed, sender) then Fail(InsufficientStake)
    else Finish(s.(hasBid := s.hasBid[op.id := BiddersAt(s, op.id) + {sender}],
                   bids := s.bids[op.id := BidsAt(s, op.id) + [Bid(sender, op.price, now)]]))
  }

  /** `_requireSufficientStake`: the first listing of the wallet decides. */
  predicate StakeSuffices(listed: seq<Registry.Provider>, provider: Address)
    ensures StakeSuffices(listed, provider) <==> RegistryContract.Passes(listed, provider)
    decreases |listed|
  {
    if listed == [] then false
    else if listed[0].wallet == provider then
      assert listed[0].stakedAmount >= Registry.MIN_STAKE ==> RegistryContract.Passes(listed, provider);
      listed[0].stakedAmount >= Registry.MIN_STAKE
    else
      PassesTail(listed, provider);
      StakeSuffices(listed[1..], provider)
  }

  lemma PassesTail(listed: seq<Registry.Provider>, provider: Address)
    requires listed != [] && listed[0].wallet != provider
    ensures RegistryContract.Passes(listed, provider) <==> RegistryContract.Passes(listed[1..], provider)
  {
    if RegistryContract.Passes(listed, provider) {
      var i :| 0 <= i < |listed| && listed[i].wallet == provider && listed[i].stakedAmount >= Registry.MIN_STAKE
               && (forall j :: 0 <= j < i ==> listed[j].wallet != provider);
      assert listed[1..][i - 1] == listed[i];
      assert forall j :: 0 <= j < i - 1 ==> listed[1..][j] == listed[j + 1];
    }
    if RegistryContract.Passes(listed[1..], provider) {
      var i :| 0 <= i < |listed[1..]| && listed[1..][i].wallet == provider
               && listed[1..][i].stakedAmount >= Registry.MIN_STAKE
               && (forall j :: 0 <= j < i ==> listed[1..][j].wallet != provider);
      assert listed[i + 1] == listed[1..][i];
      forall j | 0 <= j < i + 1 ensures listed[j].wallet != provider {
        if j > 0 {
          assert listed[j] == listed[1..][j - 1];
        }
      }
    }
  }

  /** Award the job and forward the whole balance to the escrow. */
  function Award(s: State, id: Id, provider: Address, rate: nat): Phase {
    Call(s.(jobs := s.jobs[id := JobAt(s, id).(status := Awarded, winningProvider := provider,
                                               winningRatePerSecond := rate)],
            balance := 0, journal := s.journal + [Forwarded(id, provider, s.balance, rate)]))
  }

  function BeginClose(s: State, id: Id, now: nat): Phase {
    var j := JobAt(s, id);
    var bs := BidsAt(s, id);
    if j.user == ZERO then Fail(JobNotFound)
    else if j.status != Open then Fail(WrongStatus)
    else if now <= j.depositedAt + BID_WINDOW then Fail(BidWindowOpen)
    else if |bs| == 0 then
      if s.fallbackProvider == ZERO then Fail(NoFallbackProvider)
      else Award(s, id, s.fallbackProvider, RateOf(j.maxPricePerHour))
    else
      var w := bs[WinnerAt(bs)];
      Award(s, id, w.provider, RateOf(w.pricePerHour))
  }

  function Begin(s: State, sender: Account, value: nat, op: Op, now: nat): Phase {
    match op
    case PostJob(_, _, _, _, _) => BeginPost(s, sender, value, op, now)
    case CancelJob(id) => BeginCancel(s, sender, id, now)
    case SubmitBid(_, _, _) => BeginBid(s, sender, op, now)
    case CloseAuction(id) => BeginClose(s, id, now)
    case SetFallbackProvider(a) => if sender != s.owner then Fail(NotOwner) else Finish(s.(fallbackProvider := a))
    case TransferOwnership(a) => if sender != s.owner then Fail(NotOwner) else Finish(s.(owner := a))
  }

  /** `isBidWindowOpen`. */
  predicate WindowOpen(s: State, id: Id, now: nat) {
    JobAt(s, id).user != ZERO && JobAt(s, id).status == Open && now <= JobAt(s, id).depositedAt + BID_WINDOW
  }

  datatype Gate = Pass | Shut(error: Error)

  function Enter(s: State, value: nat, op: Op): Gate {
    if value > 0 && !op.PostJob? then Shut(NotPayable)
    else if Guarded(op) && s.locked then Shut(ReentrantCall)
    else Pass
  }

  function Admit(s: State, value: nat, op: Op): State {
    s.(balance := s.balance + value, locked := s.locked || Guarded(op))
  }

  function Exec(s: State, tx: Tx, now: nat): Outcome
    decreases tx
  {
    match Enter(s, tx.value, tx.op)
    case Shut(error) => Reverted(error)
    case Pass =>
      match Begin(Admit(s, tx.value, tx.op), tx.sender, tx.value, tx.op, now)
      case Fail(error) => Reverted(error)
      case Finish(s1) => Done(s1.(locked := s.locked))
      case Call(s1) =>
        if !tx.callee.accepts then Reverted(CallFailed)
        else Done(Handover(s1, tx.callee.calls, now).(locked := s.locked))
  }

  function After(s: State, o: Outcome): State {
    if o.Done? then o.s else s
  }

  function Handover(s: State, calls: seq<Tx>, now: nat): State
    decreases calls
  {
    if calls == [] then s else Handover(After(s, Exec(s, calls[0], now)), calls[1..], now)
  }

  datatype Timed = Timed(now: nat, tx: Tx)

  function Run(s: State, txs: seq<Timed>): State
    decreases |txs|
  {
    if txs == [] then s else Run(After(s, Exec(s, txs[0].tx, txs[0].now)), txs[1..])
  }
}
