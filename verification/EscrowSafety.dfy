/** What every run of the escrow keeps, whatever the called-back parties do. */
module EscrowSafety {
  import opened Chain
  import opened EscrowModel

  // ----- The guard -----

  /** While the guard is taken, foreign code can only mark escrows as disputed and move the
      owner and authority addresses. */
  ghost predicate Frozen(s: State, s': State) {
    && s' == s.(owner := s'.owner, releaseAuthority := s'.releaseAuthority,
                proofAuthority := s'.proofAuthority, escrows := s'.escrows)
    && s'.escrows.Keys == s.escrows.Keys
    && forall id :: id in s.escrows ==>
         s'.escrows[id] == s.escrows[id]
         || (s.escrows[id].status == Pending && s'.escrows[id] == s.escrows[id].(status := Disputed))
  }

  lemma FrozenTransitive(s: State, s1: State, s2: State)
    requires Frozen(s, s1) && Frozen(s1, s2)
    ensures Frozen(s, s2)
  {
  }

  /** A call back into a locked contract makes no external call and changes nothing of value. */
  lemma LockedCallIsFrozen(s: State, tx: Tx, now: nat)
    requires s.locked
    ensures Frozen(s, After(s, Exec(s, tx, now)))
    ensures Exec(s, tx, now).seen == []
    ensures Guarded(tx.op) ==> Exec(s, tx, now).Reverted?
  {
  }

  /** Whatever foreign code does while the guard is taken, it returns a frozen state, and it
      only ever saw frozen states. */
  lemma {:induction false} HandoverIsFrozen(s: State, calls: seq<Tx>, now: nat)
    requires s.locked
    ensures Frozen(s, Handover(s, calls, now).s)
    ensures forall i :: 0 <= i < |Handover(s, calls, now).seen| ==> Frozen(s, Handover(s, calls, now).seen[i])
    decreases |calls|
  {
    if calls != [] {
      LockedCallIsFrozen(s, calls[0], now);
      var s1 := After(s, Exec(s, calls[0], now));
      HandoverIsFrozen(s1, calls[1..], now);
      var rest := Handover(s1, calls[1..], now);
      FrozenTransitive(s, s1, rest.s);
      forall i | 0 <= i < |rest.seen| ensures Frozen(s, rest.seen[i]) {
        FrozenTransitive(s, s1, rest.seen[i]);
      }
    }
  }

  // ----- Solvency -----

  function Held(e: Escrow): nat {
    if e.status == Pending || e.status == Disputed then e.amount else 0
  }

  function Remaining(x: Session): nat {
    x.remainingBalance
  }

  /** What the contract owes: open escrows, undripped session balances and unwithdrawn fees. */
  ghost function Liabilities(s: State): nat {
    Total(s.escrows, Held) + Total(s.sessions, Remaining) + s.accruedFees
  }

  /** A slash refund stays in the balance while the registry is called. */
  function InFlight(next: Cont): nat {
    if next.RefundSlashed? then next.amount else 0
  }

  /** Stored records have a user, so a slot is occupied exactly when its user is non-zero. */
  ghost predicate Keyed(s: State) {
    && (forall id :: id in s.escrows ==> s.escrows[id].user != ZERO)
    && (forall id :: id in s.sessions ==> s.sessions[id].user != ZERO)
  }

  ghost predicate Solvent(s: State, next: Cont) {
    Keyed(s) && s.balance == Liabilities(s) + InFlight(next)
  }

  lemma FrozenKeepsSolvent(s: State, s': State, next: Cont)
    requires Solvent(s, next) && Frozen(s, s')
    ensures Solvent(s', next)
  {
    TotalSame(s.escrows, s'.escrows, Held);
  }

  ghost predicate PhaseSolvent(p: Phase) {
    match p
    case Fail(_) => true
    case Finish(s) => Solvent(s, Return)
    case Call(s, _, next) => Solvent(s, next)
  }

  lemma WriteEscrow(s: State, id: Id, e: Escrow)
    ensures Total(s.escrows[id := e], Held)
         == Total(s.escrows, Held) - (if id in s.escrows then Held(s.escrows[id]) else 0) + Held(e)
  {
    TotalWrite(s.escrows, Held, id, e);
  }

  lemma WriteSession(s: State, id: Id, x: Session)
    ensures Total(s.sessions[id := x], Remaining)
         == Total(s.sessions, Remaining) - (if id in s.sessions then s.sessions[id].remainingBalance else 0)
            + x.remainingBalance
  {
    TotalWrite(s.sessions, Remaining, id, x);
  }

  lemma ResumeKeepsSolvent(s: State, next: Cont)
    requires Solvent(s, next)
    requires next.RefundStopped? ==> next.id in s.sessions
    ensures PhaseSolvent(Resume(s, next))
  {
    match next
    case Return =>
    case RefundSlashed(_, _, _) =>
    case RefundStopped(id) =>
      WriteSession(s, id, SessionAt(s, id).(remainingBalance := 0, isActive := false));
  }

  lemma AccrueKeepsSolvent(s: State, id: Id, now: nat, next: Cont)
    requires Solvent(s, Return) && id in s.sessions
    requires next == Return || next == RefundStopped(id)
    ensures PhaseSolvent(ReleaseAccrued(s, id, now, next))
  {
    var x := s.sessions[id];
    match Accrued(x, now)
    case Overflow =>
    case Nothing => ResumeKeepsSolvent(s, next);
    case Owed(owed) =>
      WriteSession(s, id, x.(remainingBalance := x.remainingBalance - owed, lastPaidAt := now));
  }

  lemma PayUserKeepsSolvent(s: State, id: Id)
    requires Solvent(s, Return) && id in s.escrows && Held(s.escrows[id]) == s.escrows[id].amount
    ensures PhaseSolvent(PayUser(s, id, s.escrows[id]))
  {
    WriteEscrow(s, id, s.escrows[id].(status := Refunded));
  }

  lemma PayProviderKeepsSolvent(s: State, id: Id)
    requires Solvent(s, Return) && id in s.escrows && Held(s.escrows[id]) == s.escrows[id].amount
    ensures PhaseSolvent(PayProvider(s, id, s.escrows[id]))
  {
    WriteEscrow(s, id, s.escrows[id].(status := Released));
  }

  lemma EscrowOpKeepsSolvent(s: State, sender: Account, op: Op, now: nat)
    requires Solvent(s, Return)
    requires op.Refund? || op.Release? || op.Dispute? || op.ResolveDispute?
    ensures PhaseSolvent(Begin(s, sender, 0, op, now))
  {
    if op.id in s.escrows {
      if Held(s.escrows[op.id]) == s.escrows[op.id].amount {
        PayUserKeepsSolvent(s, op.id);
        PayProviderKeepsSolvent(s, op.id);
      }
      WriteEscrow(s, op.id, s.escrows[op.id].(status := Disputed));
    }
  }

  lemma SessionOpKeepsSolvent(s: State, sender: Account, op: Op, now: nat)
    requires Solvent(s, Return)
    requires op.ReleasePayment? || op.SubmitProof? || op.StopSession? || op.SlashProvider?
    ensures PhaseSolvent(Begin(s, sender, 0, op, now))
  {
    if op.id in s.sessions {
      AccrueKeepsSolvent(s, op.id, now, if op.StopSession? then RefundStopped(op.id) else Return);
      WriteSession(s, op.id, s.sessions[op.id].(remainingBalance := 0, isActive := false));
    }
  }

  lemma DepositKeepsSolvent(s: State, sender: Account, value: nat, op: Op, now: nat)
    requires Keyed(s) && s.balance == Liabilities(s) + value && Payable(op)
    ensures PhaseSolvent(Begin(s, sender, value, op, now))
  {
    if op.Deposit? {
      WriteEscrow(s, op.id, Escrow(sender, op.provider, value, now, Pending));
    } else {
      WriteSession(s, op.id, Session(sender, op.provider, op.rate, value - Upfront(value), now, true));
    }
  }

  lemma BeginKeepsSolvent(s: State, sender: Account, value: nat, op: Op, now: nat)
    requires Keyed(s) && s.balance == Liabilities(s) + value
    requires value > 0 ==> Payable(op)
    ensures PhaseSolvent(Begin(s, sender, value, op, now))
  {
    match op
    case Deposit(_, _) => DepositKeepsSolvent(s, sender, value, op, now);
    case StartSession(_, _, _) => DepositKeepsSolvent(s, sender, value, op, now);
    case Refund(_) => EscrowOpKeepsSolvent(s, sender, op, now);
    case Release(_) => EscrowOpKeepsSolvent(s, sender, op, now);
    case Dispute(_) => EscrowOpKeepsSolvent(s, sender, op, now);
    case ResolveDispute(_, _) => EscrowOpKeepsSolvent(s, sender, op, now);
    case ReleasePayment(_) => SessionOpKeepsSolvent(s, sender, op, now);
    case SubmitProof(_) => SessionOpKeepsSolvent(s, sender, op, now);
    case StopSession(_) => SessionOpKeepsSolvent(s, sender, op, now);
    case SlashProvider(_) => SessionOpKeepsSolvent(s, sender, op, now);
    case WithdrawFees =>
    case SetReleaseAuthority(_) =>
    case SetProofAuthority(_) =>
    case TransferOwnership(_) =>
  }
}
