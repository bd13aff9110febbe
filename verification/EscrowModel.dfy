/** DeploymentEscrow as a transition system.

    A transaction is checked and applied in phases. A phase ends either the call or at an
    external call, where foreign code runs and may call back any function of this contract
    before it accepts or refuses. The reentrancy guard is part of the state, so a callback
    into a guarded function fails because the guard says so and not by assumption. */
module EscrowModel {
  import opened Chain

  const LOCKUP_PERIOD: nat := 24 * 60 * 60
  const FEE_BPS: nat := 1_000
  const BPS_DENOM: nat := 10_000
  const UPFRONT_BPS: nat := 2_000

  datatype Status = Pending | Released | Refunded | Disputed

  datatype Escrow = Escrow(user: Address, provider: Address, amount: nat, depositedAt: nat, status: Status)

  datatype Session = Session(user: Address, provider: Address, ratePerSecond: nat,
                             remainingBalance: nat, lastPaidAt: nat, isActive: bool)

  /** An unwritten mapping slot reads as zeros. */
  const NO_ESCROW := Escrow(ZERO, ZERO, 0, 0, Pending)
  const NO_SESSION := Session(ZERO, ZERO, 0, 0, 0, false)

  /** The movements of ETH the contract has made, oldest first. */
  datatype Entry =
    | EscrowIn(id: Id, amount: nat)
    | EscrowOut(id: Id, to: Address, amount: nat, fee: nat)
    | SessionIn(id: Id, amount: nat)
    | UpfrontOut(id: Id, to: Address, amount: nat)
    | StreamOut(id: Id, to: Address, amount: nat, fee: nat)
    | SessionBack(id: Id, to: Address, amount: nat)
    | FeesOut(to: Address, amount: nat)

  datatype State = State(
    balance: nat,
    owner: Address,
    releaseAuthority: Address,
    proofAuthority: Address,
    escrows: map<Id, Escrow>,
    sessions: map<Id, Session>,
    accruedFees: nat,
    locked: bool,
    journal: seq<Entry>)

  datatype Error =
    | ReentrantCall | NotPayable | NotOwner | ZeroAmount | ZeroRate | SessionAlreadyExists | SessionNotFound
    | SessionNotActive | WrongStatus | LockupNotExpired | Unauthorised | NoFeesToWithdraw | TransferFailed | Panic

  /** `TransferOwnership(ZERO)` is `renounceOwnership`. */
  datatype Op =
    | Deposit(id: Id, provider: Address)
    | Refund(id: Id)
    | Release(id: Id)
    | Dispute(id: Id)
    | ResolveDispute(id: Id, toProvider: bool)
    | WithdrawFees
    | StartSession(id: Id, provider: Address, rate: nat)
    | ReleasePayment(id: Id)
    | SubmitProof(id: Id)
    | StopSession(id: Id)
    | SlashProvider(id: Id)
    | SetReleaseAuthority(authority: Address)
    | SetProofAuthority(authority: Address)
    | TransferOwnership(newOwner: Address)

  /** What foreign code does when it is called: it makes these calls back, then accepts or reverts. */
  datatype Callee = Callee(accepts: bool, calls: seq<Tx>)

  /** `first` and `second` are the parties behind the first and second external call. */
  datatype Tx = Tx(sender: Account, value: nat, op: Op, first: Callee, second: Callee)

  /** What is left to do after an external call returns. */
  datatype Cont = Return | RefundStopped(id: Id) | RefundSlashed(id: Id, user: Address, amount: nat)

  datatype Phase =
    | Fail(error: Error)
    | Finish(s: State)
    | Call(s: State, mustAccept: bool, next: Cont)

  /** `seen` are the states handed to foreign code, and those it left between its calls back. */
  datatype Outcome =
    | Reverted(error: Error, seen: seq<State>)
    | Done(s: State, seen: seq<State>)

  datatype Handed = Handed(s: State, seen: seq<State>)

  function Init(owner: Account, authority: Address): State {
    State(0, owner, authority, authority, map[], map[], 0, false, [])
  }

  function EscrowAt(s: State, id: Id): Escrow {
    if id in s.escrows then s.escrows[id] else NO_ESCROW
  }

  function SessionAt(s: State, id: Id): Session {
    if id in s.sessions then s.sessions[id] else NO_SESSION
  }

  /** The protocol fee is a tenth, rounded down. */
  function Fee(amount: nat): (fee: nat)
    ensures fee == amount / 10
  {
    amount * FEE_BPS / BPS_DENOM
  }

  /** A fifth of a session's deposit is paid up front, rounded down. */
  function Upfront(amount: nat): (part: nat)
    ensures part == amount / 5
  {
    amount * UPFRONT_BPS / BPS_DENOM
  }

  predicate Guarded(op: Op) {
    !(op.Dispute? || op.SetReleaseAuthority? || op.SetProofAuthority? || op.TransferOwnership?)
  }

  predicate Payable(op: Op) {
    op.Deposit? || op.StartSession?
  }

  function Pay(s: State, amount: nat, e: Entry, next: Cont): Phase {
    if s.balance < amount then Fail(TransferFailed)
    else Call(s.(balance := s.balance - amount, journal := s.journal + [e]), true, next)
  }

  function BeginDeposit(s: State, sender: Account, value: nat, id: Id, provider: Address, now: nat): Phase {
    if value == 0 then Fail(ZeroAmount)
    else if EscrowAt(s, id).user != ZERO then Fail(SessionAlreadyExists)
    else Finish(s.(escrows := s.escrows[id := Escrow(sender, provider, value, now, Pending)],
                   journal := s.journal + [EscrowIn(id, value)]))
  }

  function BeginRefund(s: State, sender: Account, id: Id, now: nat): Phase {
    var e := EscrowAt(s, id);
    if e.user == ZERO then Fail(SessionNotFound)
    else if e.status != Pending then Fail(WrongStatus)
    else if sender != e.user then Fail(Unauthorised)
    else if now < e.depositedAt + LOCKUP_PERIOD then Fail(LockupNotExpired)
    else PayUser(s, id, e)
  }

  function PayUser(s: State, id: Id, e: Escrow): Phase {
    Pay(s.(escrows := s.escrows[id := e.(status := Refunded)]), e.amount, EscrowOut(id, e.user, e.amount, 0), Return)
  }

  function PayProvider(s: State, id: Id, e: Escrow): Phase {
    var fee := Fee(e.amount);
    Pay(s.(escrows := s.escrows[id := e.(status := Released)], accruedFees := s.accruedFees + fee),
        e.amount - fee, EscrowOut(id, e.provider, e.amount - fee, fee), Return)
  }

  function BeginRelease(s: State, sender: Account, id: Id): Phase {
    var e := EscrowAt(s, id);
    if sender != s.releaseAuthority && sender != s.owner then Fail(Unauthorised)
    else if e.user == ZERO then Fail(SessionNotFound)
    else if e.status != Pending then Fail(WrongStatus)
    else PayProvider(s, id, e)
  }

  function BeginDispute(s: State, sender: Account, id: Id): Phase {
    var e := EscrowAt(s, id);
    if sender != s.releaseAuthority && sender != s.owner then Fail(Unauthorised)
    else if e.user == ZERO then Fail(SessionNotFound)
    else if e.status != Pending then Fail(WrongStatus)
    else Finish(s.(escrows := s.escrows[id := e.(status := Disputed)]))
  }

  function BeginResolve(s: State, sender: Account, id: Id, toProvider: bool): Phase {
    var e := EscrowAt(s, id);
    if sender != s.owner then Fail(NotOwner)
    else if e.user == ZERO then Fail(SessionNotFound)
    else if e.status != Disputed then Fail(WrongStatus)
    else if toProvider then PayProvider(s, id, e)
    else PayUser(s, id, e)
  }

  function BeginWithdraw(s: State): Phase {
    if s.accruedFees == 0 then Fail(NoFeesToWithdraw)
    else Pay(s.(accruedFees := 0), s.accruedFees, FeesOut(s.owner, s.accruedFees), Return)
  }

  function BeginStart(s: State, sender: Account, value: nat, id: Id, provider: Address, rate: nat, now: nat): Phase {
    var up := Upfront(value);
    if value == 0 then Fail(ZeroAmount)
    else if rate == 0 then Fail(ZeroRate)
    else if SessionAt(s, id).user != ZERO then Fail(SessionAlreadyExists)
    else
      Pay(s.(sessions := s.sessions[id := Session(sender, provider, rate, value - up, now, true)],
             journal := s.journal + [SessionIn(id, value)]),
          up, UpfrontOut(id, provider, up), Return)
  }

  datatype Accrual = Nothing | Owed(amount: nat) | Overflow

  /** What `_releaseAccrued` drains. Subtraction and multiplication are checked. */
  function Accrued(x: Session, now: nat): (a: Accrual)
    ensures a.Owed? ==> 0 < a.amount <= x.remainingBalance
  {
    if now < x.lastPaidAt then Overflow
    else if now == x.lastPaidAt then Nothing
    else if (now - x.lastPaidAt) * x.ratePerSecond >= WORD then Overflow
    else
      var owed := Min((now - x.lastPaidAt) * x.ratePerSecond, x.remainingBalance);
      if owed == 0 then Nothing else Owed(owed)
  }

  function ReleaseAccrued(s: State, id: Id, now: nat, next: Cont): Phase {
    var x := SessionAt(s, id);
    match Accrued(x, now)
    case Overflow => Fail(Panic)
    case Nothing => Resume(s, next)
    case Owed(owed) =>
      var fee := Fee(owed);
      Pay(s.(sessions := s.sessions[id := x.(remainingBalance := x.remainingBalance - owed, lastPaidAt := now)],
             accruedFees := s.accruedFees + fee),
          owed - fee, StreamOut(id, x.provider, owed - fee, fee), next)
  }

  function BeginReleasePayment(s: State, id: Id, now: nat): Phase {
    if SessionAt(s, id).user == ZERO then Fail(SessionNotFound)
    else if !SessionAt(s, id).isActive then Fail(SessionNotActive)
    else ReleaseAccrued(s, id, now, Return)
  }

  function BeginSubmitProof(s: State, sender: Account, id: Id, now: nat): Phase {
    if sender != s.proofAuthority && sender != s.owner then Fail(Unauthorised)
    else BeginReleasePayment(s, id, now)
  }

  function BeginStop(s: State, sender: Account, id: Id, now: nat): Phase {
    if SessionAt(s, id).user == ZERO then Fail(SessionNotFound)
    else if !SessionAt(s, id).isActive then Fail(SessionNotActive)
    else if sender != SessionAt(s, id).user then Fail(Unauthorised)
    else ReleaseAccrued(s, id, now, RefundStopped(id))
  }

  /** The registry call carries no value and its failure is swallowed. */
  function BeginSlash(s: State, sender: Account, id: Id): Phase {
    var x := SessionAt(s, id);
    if sender != s.proofAuthority && sender != s.owner then Fail(Unauthorised)
    else if x.user == ZERO then Fail(SessionNotFound)
    else if !x.isActive then Fail(SessionNotActive)
    else Call(s.(sessions := s.sessions[id := x.(remainingBalance := 0, isActive := false)]),
              false, RefundSlashed(id, x.user, x.remainingBalance))
  }

  function Resume(s: State, next: Cont): Phase {
    match next
    case Return => Finish(s)
    case RefundStopped(id) =>
      var x := SessionAt(s, id);
      var s1 := s.(sessions := s.sessions[id := x.(remainingBalance := 0, isActive := false)]);
      if x.remainingBalance > 0
      then Pay(s1, x.remainingBalance, SessionBack(id, x.user, x.remainingBalance), Return)
      else Finish(s1)
    case RefundSlashed(id, user, amount) =>
      if amount > 0 then Pay(s, amount, SessionBack(id, user, amount), Return) else Finish(s)
  }

  function BeginAdmin(s: State, sender: Account, op: Op): Phase {
    if sender != s.owner then Fail(NotOwner)
    else if op.SetReleaseAuthority? then Finish(s.(releaseAuthority := op.authority))
    else if op.SetProofAuthority? then Finish(s.(proofAuthority := op.authority))
    else if op.TransferOwnership? then Finish(s.(owner := op.newOwner))
    else Fail(Panic)
  }

  function Begin(s: State, sender: Account, value: nat, op: Op, now: nat): Phase {
    match op
    case Deposit(id, provider) => BeginDeposit(s, sender, value, id, provider, now)
    case Refund(id) => BeginRefund(s, sender, id, now)
    case Release(id) => BeginRelease(s, sender, id)
    case Dispute(id) => BeginDispute(s, sender, id)
    case ResolveDispute(id, toProvider) => BeginResolve(s, sender, id, toProvider)
    case WithdrawFees => BeginWithdraw(s)
    case StartSession(id, provider, rate) => BeginStart(s, sender, value, id, provider, rate, now)
    case ReleasePayment(id) => BeginReleasePayment(s, id, now)
    case SubmitProof(id) => BeginSubmitProof(s, sender, id, now)
    case StopSession(id) => BeginStop(s, sender, id, now)
    case SlashProvider(id) => BeginSlash(s, sender, id)
    case SetReleaseAuthority(_) => BeginAdmin(s, sender, op)
    case SetProofAuthority(_) => BeginAdmin(s, sender, op)
    case TransferOwnership(_) => BeginAdmin(s, sender, op)
  }

  datatype Gate = Open | Shut(error: Error)

  /** The checks before the body: value on a non-payable function, then the modifiers in source order. */
  function Enter(s: State, sender: Account, value: nat, op: Op): Gate {
    if value > 0 && !Payable(op) then Shut(NotPayable)
    else if op.WithdrawFees? && sender != s.owner then Shut(NotOwner)
    else if Guarded(op) && s.locked then Shut(ReentrantCall)
    else Open
  }

  function Admit(s: State, value: nat, op: Op): State {
    s.(balance := s.balance + value, locked := s.locked || Guarded(op))
  }

  /** A whole transaction, callbacks included. A revert leaves the state as it was. */
  function Exec(s: State, tx: Tx, now: nat): Outcome
    decreases tx, 1
  {
    match Enter(s, tx.sender, tx.value, tx.op)
    case Shut(error) => Reverted(error, [])
    case Open =>
      match Begin(Admit(s, tx.value, tx.op), tx.sender, tx.value, tx.op, now)
      case Fail(error) => Reverted(error, [])
      case Finish(s1) => Done(s1.(locked := s.locked), [])
      case Call(s1, mustAccept, next) =>
        var h := Handover(s1, tx.first.calls, now);
        if mustAccept && !tx.first.accepts then Reverted(TransferFailed, h.seen)
        else Conclude(Resume(if tx.first.accepts then h.s else s1, next), tx, s.locked, h.seen, now)
  }

  /** The rest of a transaction after its first external call, which left `seen` behind. */
  function Conclude(p: Phase, tx: Tx, locked: bool, seen: seq<State>, now: nat): Outcome
    decreases tx, 0
  {
    match p
    case Fail(error) => Reverted(error, seen)
    case Finish(s) => Done(s.(locked := locked), seen)
    case Call(s, mustAccept, _) =>
      var h := Handover(s, tx.second.calls, now);
      if mustAccept && !tx.second.accepts then Reverted(TransferFailed, seen + h.seen)
      else Done(h.s.(locked := locked), seen + h.seen)
  }

  function After(s: State, o: Outcome): State {
    if o.Done? then o.s else s
  }

  /** Foreign code runs: each of its calls back is a transaction of its own. */
  function Handover(s: State, calls: seq<Tx>, now: nat): Handed
    decreases calls
  {
    if calls == [] then Handed(s, [s])
    else
      var o := Exec(s, calls[0], now);
      var h := Handover(After(s, o), calls[1..], now);
      Handed(h.s, [s] + o.seen + h.seen)
  }

  /** Top-level transactions with the timestamp of the block that holds them. */
  datatype Timed = Timed(now: nat, tx: Tx)

  function Run(s: State, txs: seq<Timed>): State
    decreases |txs|
  {
    if txs == [] then s else Run(After(s, Exec(s, txs[0].tx, txs[0].now)), txs[1..])
  }

  /** Every state that foreign code observes in a run. */
  function Observed(s: State, txs: seq<Timed>): seq<State>
    decreases |txs|
  {
    if txs == [] then []
    else
      var o := Exec(s, txs[0].tx, txs[0].now);
      o.seen + Observed(After(s, o), txs[1..])
  }
}
