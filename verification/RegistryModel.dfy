/** ProviderRegistry as a transition system, with callbacks during payouts. */
module RegistryModel {
  import opened Chain

  /** 0.01 ether. */
  const MIN_STAKE: nat := 10_000_000_000_000_000

  datatype Provider = Provider(wallet: Address, endpoint: string, pricePerHour: nat, stakedAmount: nat,
                               slashCount: nat, jobsCompleted: nat, active: bool)

  const NO_PROVIDER := Provider(ZERO, "", 0, 0, 0, 0, false)

  /** The movements of stake the contract has made, oldest first. */
  datatype Entry =
    | StakeIn(wallet: Address, amount: nat)
    | StakeOut(wallet: Address, to: Address, amount: nat)
    | SlashOut(wallet: Address, to: Address, amount: nat)

  datatype State = State(
    balance: nat,
    owner: Address,
    slashAuthority: Address,
    providers: map<Address, Provider>,
    providerList: seq<Address>,
    locked: bool,
    journal: seq<Entry>)

  datatype Error =
    | ReentrantCall | NotPayable | NotOwner | AlreadyRegistered | NotRegistered | InsufficientStake
    | Unauthorised | ZeroAmount | EmptyEndpoint | TransferFailed

  datatype Op =
    | Register(endpoint: string, price: nat)
    | Update(endpoint: string, price: nat)
    | Stake
    | Unstake(amount: nat)
    | Deactivate
    | Reactivate
    | Slash(wallet: Address)
    | RecordJobCompleted(wallet: Address)
    | SetSlashAuthority(authority: Address)
    | TransferOwnership(newOwner: Address)

  /** The recipient of a payout: the calls it makes back, then whether it accepts the money. */
  datatype Callee = Callee(accepts: bool, calls: seq<Tx>)

  datatype Tx = Tx(sender: Account, value: nat, op: Op, callee: Callee)

  datatype Phase = Fail(error: Error) | Finish(s: State) | Call(s: State)

  /** `seen` are the states foreign code observes. */
  datatype Outcome = Reverted(error: Error, seen: seq<State>) | Done(s: State, seen: seq<State>)

  datatype Handed = Handed(s: State, seen: seq<State>)

  function Init(owner: Account, authority: Address): State {
    State(0, owner, authority, map[], [], false, [])
  }

  function ProviderAt(s: State, a: Address): Provider {
    if a in s.providers then s.providers[a] else NO_PROVIDER
  }

  predicate Guarded(op: Op) {
    op.Register? || op.Stake? || op.Unstake? || op.Slash?
  }

  predicate Payable(op: Op) {
    op.Register? || op.Stake?
  }

  function Pay(s: State, amount: nat, e: Entry): Phase {
    if s.balance < amount then Fail(TransferFailed)
    else Call(s.(balance := s.balance - amount, journal := s.journal + [e]))
  }

  function Put(s: State, a: Address, p: Provider): State {
    s.(providers := s.providers[a := p])
  }

  function BeginRegister(s: State, sender: Account, value: nat, endpoint: string, price: nat): Phase {
    if ProviderAt(s, sender).wallet != ZERO then Fail(AlreadyRegistered)
    else if value < MIN_STAKE then Fail(InsufficientStake)
    else if |endpoint| == 0 then Fail(EmptyEndpoint)
    else Finish(Put(s, sender, Provider(sender, endpoint, price, value, 0, 0, true))
                .(providerList := s.providerList + [sender], journal := s.journal + [StakeIn(sender, value)]))
  }

  function BeginStake(s: State, sender: Account, value: nat): Phase {
    var p := ProviderAt(s, sender);
    if p.wallet == ZERO then Fail(NotRegistered)
    else if value == 0 then Fail(ZeroAmount)
    else
      var p1 := p.(stakedAmount := p.stakedAmount + value);
      Finish(Put(s, sender, if !p1.active && p1.stakedAmount >= MIN_STAKE then p1.(active := true) else p1)
             .(journal := s.journal + [StakeIn(sender, value)]))
  }

  function BeginUnstake(s: State, sender: Account, amount: nat): Phase {
    var p := ProviderAt(s, sender);
    if p.wallet == ZERO then Fail(NotRegistered)
    else if amount == 0 then Fail(ZeroAmount)
    else if amount > p.stakedAmount then Fail(InsufficientStake)
    else
      var p1 := p.(stakedAmount := p.stakedAmount - amount);
      Pay(Put(s, sender, if p1.stakedAmount < MIN_STAKE && p1.active then p1.(active := false) else p1), amount,
          StakeOut(sender, sender, amount))
  }

  function BeginReactivate(s: State, sender: Account): Phase {
    var p := ProviderAt(s, sender);
    if p.wallet == ZERO then Fail(NotRegistered)
    else if p.stakedAmount < MIN_STAKE then Fail(InsufficientStake)
    else Finish(Put(s, sender, p.(active := true)))
  }

  /** Half of the stake goes to the owner. */
  function BeginSlash(s: State, sender: Account, wallet: Address): Phase {
    var p := ProviderAt(s, wallet);
    if sender != s.slashAuthority && sender != s.owner then Fail(Unauthorised)
    else if p.wallet == ZERO then Fail(NotRegistered)
    else
      var slashed := p.stakedAmount / 2;
      var p1 := p.(stakedAmount := p.stakedAmount - slashed, slashCount := p.slashCount + 1);
      Pay(Put(s, wallet, if p1.stakedAmount < MIN_STAKE then p1.(active := false) else p1), slashed,
          SlashOut(wallet, s.owner, slashed))
  }

  function BeginRecord(s: State, sender: Account, wallet: Address): Phase {
    var p := ProviderAt(s, wallet);
    if sender != s.slashAuthority && sender != s.owner then Fail(Unauthorised)
    else if p.wallet == ZERO then Fail(NotRegistered)
    else Finish(Put(s, wallet, p.(jobsCompleted := p.jobsCompleted + 1)))
  }

  function BeginUpdate(s: State, sender: Account, endpoint: string, price: nat): Phase {
    var p := ProviderAt(s, sender);
    if p.wallet == ZERO then Fail(NotRegistered)
    else if |endpoint| == 0 then Fail(EmptyEndpoint)
    else Finish(Put(s, sender, p.(endpoint := endpoint, pricePerHour := price)))
  }

  function BeginDeactivate(s: State, sender: Account): Phase {
    var p := ProviderAt(s, sender);
    if p.wallet == ZERO then Fail(NotRegistered) else Finish(Put(s, sender, p.(active := false)))
  }

  function Begin(s: State, sender: Account, value: nat, op: Op): Phase {
    match op
    case Register(endpoint, price) => BeginRegister(s, sender, value, endpoint, price)
    case Update(endpoint, price) => BeginUpdate(s, sender, endpoint, price)
    case Stake => BeginStake(s, sender, value)
    case Unstake(amount) => BeginUnstake(s, sender, amount)
    case Deactivate => BeginDeactivate(s, sender)
    case Reactivate => BeginReactivate(s, sender)
    case Slash(wallet) => BeginSlash(s, sender, wallet)
    case RecordJobCompleted(wallet) => BeginRecord(s, sender, wallet)
    case SetSlashAuthority(a) => if sender != s.owner then Fail(NotOwner) else Finish(s.(slashAuthority := a))
    case TransferOwnership(a) => if sender != s.owner then Fail(NotOwner) else Finish(s.(owner := a))
  }

  datatype Gate = Open | Shut(error: Error)

  function Enter(s: State, value: nat, op: Op): Gate {
    if value > 0 && !Payable(op) then Shut(NotPayable)
    else if Guarded(op) && s.locked then Shut(ReentrantCall)
    else Open
  }

  function Admit(s: State, value: nat, op: Op): State {
    s.(balance := s.balance + value, locked := s.locked || Guarded(op))
  }

  function Exec(s: State, tx: Tx): Outcome
    decreases tx
  {
    match Enter(s, tx.value, tx.op)
    case Shut(error) => Reverted(error, [])
    case Open =>
      match Begin(Admit(s, tx.value, tx.op), tx.sender, tx.value, tx.op)
      case Fail(error) => Reverted(error, [])
      case Finish(s1) => Done(s1.(locked := s.locked), [])
      case Call(s1) =>
        var h := Handover(s1, tx.callee.calls);
        if !tx.callee.accepts then Reverted(TransferFailed, h.seen)
        else Done(h.s.(locked := s.locked), h.seen)
  }

  function After(s: State, o: Outcome): State {
    if o.Done? then o.s else s
  }

  function Handover(s: State, calls: seq<Tx>): Handed
    decreases calls
  {
    if calls == [] then Handed(s, [s])
    else
      var o := Exec(s, calls[0]);
      var h := Handover(After(s, o), calls[1..]);
      Handed(h.s, [s] + o.seen + h.seen)
  }

  function Run(s: State, txs: seq<Tx>): State
    decreases |txs|
  {
    if txs == [] then s else Run(After(s, Exec(s, txs[0])), txs[1..])
  }

  function Observed(s: State, txs: seq<Tx>): seq<State>
    decreases |txs|
  {
    if txs == [] then []
    else
      var o := Exec(s, txs[0]);
      o.seen + Observed(After(s, o), txs[1..])
  }

  predicate Listed(p: Provider) {
    p.active && p.stakedAmount >= MIN_STAKE
  }

  /** `getActiveProviders` by its meaning: the listed providers in registration order. */
  function ActiveProviders(s: State, list: seq<Address>): seq<Provider>
    decreases |list|
  {
    if list == [] then []
    else
      var p := ProviderAt(s, list[|list| - 1]);
      ActiveProviders(s, list[..|list| - 1]) + if Listed(p) then [p] else []
  }
}
