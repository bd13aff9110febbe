/** The contract itself: its storage, and its functions as they update it step by step.

    Each function is proved to do what the transition system says of the same message, callbacks
    and reverts included. */
module DeploymentEscrowContract {
  import opened Chain
  import opened EscrowModel
  import StreamingSchedule
  import EscrowLifecycle

  datatype Receipt = Success | Failure(error: Error)

  /** The receipt and the storage left behind agree with an outcome of the transition system. */
  ghost predicate Matches(o: Outcome, before: State, r: Receipt, after: State) {
    match o
    case Done(s, _) => r == Success && after == s
    case Reverted(error, _) => r == Failure(error) && after == before
  }

  lemma OwedExactly(x: Session, now: nat, owed: nat)
    requires now > x.lastPaidAt && (now - x.lastPaidAt) * x.ratePerSecond < WORD
    requires owed == Min((now - x.lastPaidAt) * x.ratePerSecond, x.remainingBalance) && owed > 0
    ensures Accrued(x, now) == Owed(owed)
  {
  }

  class DeploymentEscrow {
    var balance: nat
    var owner: Address
    var releaseAuthority: Address
    var proofAuthority: Address
    var escrows: map<Id, Escrow>
    var sessions: map<Id, Session>
    var accruedFees: nat
    var locked: bool
    var journal: seq<Entry>

    function Snapshot(): State
      reads this
    {
      State(balance, owner, releaseAuthority, proofAuthority, escrows, sessions, accruedFees, locked, journal)
    }

    constructor (initialOwner: Account, authority: Address)
      ensures Snapshot() == Init(initialOwner, authority)
    {
      balance, accruedFees, locked, journal := 0, 0, false, [];
      owner, releaseAuthority, proofAuthority := initialOwner, authority, authority;
      escrows, sessions := map[], map[];
    }

    /** A revert: storage goes back to what it was. */
    method Revert(saved: State, error: Error) returns (r: Receipt)
      modifies this
      ensures Snapshot() == saved && r == Failure(error)
    {
      balance, owner, releaseAuthority, proofAuthority :=
        saved.balance, saved.owner, saved.releaseAuthority, saved.proofAuthority;
      escrows, sessions, accruedFees, locked, journal :=
        saved.escrows, saved.sessions, saved.accruedFees, saved.locked, saved.journal;
      r := Failure(error);
    }

    /** The payable check and the modifiers; on success the value is credited and the guard taken. */
    method Open(msg: Tx) returns (r: Receipt)
      modifies this
      ensures match Enter(old(Snapshot()), msg.sender, msg.value, msg.op)
              case Shut(error) => r == Failure(error) && Snapshot() == old(Snapshot())
              case Open => r == Success && Snapshot() == Admit(old(Snapshot()), msg.value, msg.op)
    {
      if msg.value > 0 && !Payable(msg.op) { return Failure(NotPayable); }
      if msg.op.WithdrawFees? && msg.sender != owner { return Failure(NotOwner); }
      if Guarded(msg.op) {
        if locked { return Failure(ReentrantCall); }
        locked := true;
      }
      balance := balance + msg.value;
      return Success;
    }

    /** Foreign code calls back, one transaction after another. */
    method CallBack(calls: seq<Tx>, now: nat)
      modifies this
      ensures Snapshot() == Handover(old(Snapshot()), calls, now).s
      decreases calls, 0
    {
      var i := 0;
      while i < |calls|
        invariant 0 <= i <= |calls|
        invariant Handover(Snapshot(), calls[i..], now).s == Handover(old(Snapshot()), calls, now).s
      {
        ghost var before := Snapshot();
        assert calls[i..][0] == calls[i] && calls[i..][1..] == calls[i + 1..];
        var _ := Execute(calls[i], now);
        assert Snapshot() == After(before, Exec(before, calls[i], now));
        i := i + 1;
      }
    }

    /** `to.call{value: amount}("")`. */
    method Transfer(amount: nat, e: Entry, callee: Callee, now: nat) returns (ok: bool)
      modifies this
      ensures ok <==> old(balance) >= amount && callee.accepts
      ensures ok ==> Snapshot() == Handover(Pay(old(Snapshot()), amount, e, Return).s, callee.calls, now).s
      decreases callee, 0
    {
      if balance < amount { return false; }
      balance := balance - amount;
      journal := journal + [e];
      CallBack(callee.calls, now);
      return callee.accepts;
    }

    method Deposit(msg: Tx, id: Id, provider: Address, now: nat) returns (r: Receipt)
      requires msg.op == Op.Deposit(id, provider)
      modifies this
      ensures Matches(Exec(old(Snapshot()), msg, now), old(Snapshot()), r, Snapshot())
    {
      var saved := Snapshot();
      r := Open(msg);
      if r.Failure? { return; }
      if msg.value == 0 { r := Revert(saved, ZeroAmount); return; }
      if EscrowAt(Snapshot(), id).user != ZERO { r := Revert(saved, SessionAlreadyExists); return; }
      escrows := escrows[id := Escrow(msg.sender, provider, msg.value, now, Pending)];
      journal := journal + [EscrowIn(id, msg.value)];
      locked := saved.locked;
    }

    method Refund(msg: Tx, id: Id, now: nat) returns (r: Receipt)
      requires msg.op == Op.Refund(id)
      modifies this
      ensures Matches(Exec(old(Snapshot()), msg, now), old(Snapshot()), r, Snapshot())
      decreases msg, 1
    {
      var saved := Snapshot();
      r := Open(msg);
      if r.Failure? { return; }
      var e := EscrowAt(Snapshot(), id);
      if e.user == ZERO { r := Revert(saved, SessionNotFound); return; }
      if e.status != Pending { r := Revert(saved, WrongStatus); return; }
      if msg.sender != e.user { r := Revert(saved, Unauthorised); return; }
      if now < e.depositedAt + LOCKUP_PERIOD { r := Revert(saved, LockupNotExpired); return; }
      escrows := escrows[id := e.(status := Refunded)];
      var ok := Transfer(e.amount, EscrowOut(id, e.user, e.amount, 0), msg.first, now);
      if !ok { r := Revert(saved, TransferFailed); return; }
      locked := saved.locked;
    }

    method Release(msg: Tx, id: Id, now: nat) returns (r: Receipt)
      requires msg.op == Op.Release(id)
      modifies this
      ensures Matches(Exec(old(Snapshot()), msg, now), old(Snapshot()), r, Snapshot())
      decreases msg, 1
    {
      var saved := Snapshot();
      r := Open(msg);
      if r.Failure? { return; }
      ghost var entered := Snapshot();
      if msg.sender != releaseAuthority && msg.sender != owner { r := Revert(saved, Unauthorised); return; }
      var e := EscrowAt(Snapshot(), id);
      if e.user == ZERO { r := Revert(saved, SessionNotFound); return; }
      if e.status != Pending { r := Revert(saved, WrongStatus); return; }
      escrows := escrows[id := e.(status := Released)];
      var fee := Fee(e.amount);
      accruedFees := accruedFees + fee;
      assert Begin(entered, msg.sender, msg.value, msg.op, now)
          == Pay(Snapshot(), e.amount - fee, EscrowOut(id, e.provider, e.amount - fee, fee), Return);
      var ok := Transfer(e.amount - fee, EscrowOut(id, e.provider, e.amount - fee, fee), msg.first, now);
      if !ok { r := Revert(saved, TransferFailed); return; }
      locked := saved.locked;
    }

    method Dispute(msg: Tx, id: Id, now: nat) returns (r: Receipt)
      requires msg.op == Op.Dispute(id)
      modifies this
      ensures Matches(Exec(old(Snapshot()), msg, now), old(Snapshot()), r, Snapshot())
    {
      var saved := Snapshot();
      r := Open(msg);
      if r.Failure? { return; }
      if msg.sender != releaseAuthority && msg.sender != owner { r := Revert(saved, Unauthorised); return; }
      var e := EscrowAt(Snapshot(), id);
      if e.user == ZERO { r := Revert(saved, SessionNotFound); return; }
      if e.status != Pending { r := Revert(saved, WrongStatus); return; }
      escrows := escrows[id := e.(status := Disputed)];
    }

    method ResolveDispute(msg: Tx, id: Id, toProvider: bool, now: nat) returns (r: Receipt)
      requires msg.op == Op.ResolveDispute(id, toProvider)
      modifies this
      ensures Matches(Exec(old(Snapshot()), msg, now), old(Snapshot()), r, Snapshot())
      decreases msg, 1
    {
      var saved := Snapshot();
      r := Open(msg);
      if r.Failure? { return; }
      if msg.sender != owner { r := Revert(saved, NotOwner); return; }
      var e := EscrowAt(Snapshot(), id);
      if e.user == ZERO { r := Revert(saved, SessionNotFound); return; }
      if e.status != Disputed { r := Revert(saved, WrongStatus); return; }
      var ok;
      if toProvider {
        var fee := Fee(e.amount);
        accruedFees := accruedFees + fee;
        escrows := escrows[id := e.(status := Released)];
        ok := Transfer(e.amount - fee, EscrowOut(id, e.provider, e.amount - fee, fee), msg.first, now);
      } else {
        escrows := escrows[id := e.(status := Refunded)];
        ok := Transfer(e.amount, EscrowOut(id, e.user, e.amount, 0), msg.first, now);
      }
      if !ok { r := Revert(saved, TransferFailed); return; }
      locked := saved.locked;
    }

    method WithdrawFees(msg: Tx, now: nat) returns (r: Receipt)
      requires msg.op == Op.WithdrawFees
      modifies this
      ensures Matches(Exec(old(Snapshot()), msg, now), old(Snapshot()), r, Snapshot())
      decreases msg, 1
    {
      var saved := Snapshot();
      r := Open(msg);
      if r.Failure? { return; }
      var amount := accruedFees;
      if amount == 0 { r := Revert(saved, NoFeesToWithdraw); return; }
      accruedFees := 0;
      var ok := Transfer(amount, FeesOut(owner, amount), msg.first, now);
      if !ok { r := Revert(saved, TransferFailed); return; }
      locked := saved.locked;
    }

    method StartSession(msg: Tx, id: Id, provider: Address, rate: nat, now: nat) returns (r: Receipt)
      requires msg.op == Op.StartSession(id, provider, rate)
      modifies this
      ensures Matches(Exec(old(Snapshot()), msg, now), old(Snapshot()), r, Snapshot())
      decreases msg, 1
    {
      var saved := Snapshot();
      r := Open(msg);
      if r.Failure? { return; }
      ghost var entered := Snapshot();
      if msg.value == 0 { r := Revert(saved, ZeroAmount); return; }
      if rate == 0 { r := Revert(saved, ZeroRate); return; }
      if SessionAt(Snapshot(), id).user != ZERO { r := Revert(saved, SessionAlreadyExists); return; }
      var upfront := Upfront(msg.value);
      sessions := sessions[id := Session(msg.sender, provider, rate, msg.value - upfront, now, true)];
      journal := journal + [SessionIn(id, msg.value)];
      assert Begin(entered, msg.sender, msg.value, msg.op, now)
          == Pay(Snapshot(), upfront, UpfrontOut(id, provider, upfront), Return);
      var ok := Transfer(upfront, UpfrontOut(id, provider, upfront), msg.first, now);
      if !ok { r := Revert(saved, TransferFailed); return; }
      locked := saved.locked;
    }

    /** The second half of `_releaseAccrued`: drain, keep the fee and pay. */
    method PayProvider(id: Id, owed: nat, callee: Callee, now: nat, ghost next: Cont) returns (ok: bool)
      requires Accrued(SessionAt(Snapshot(), id), now) == Owed(owed)
      modifies this
      ensures match EscrowModel.ReleaseAccrued(old(Snapshot()), id, now, next)
              case Fail(error) => !ok && error == TransferFailed
              case Finish(_) => false
              case Call(s, _, _) =>
                && ok == callee.accepts
                && (ok ==> Snapshot() == Handover(s, callee.calls, now).s)
      decreases callee, 1
    {
      StreamingSchedule.AccruedIsPaid(Snapshot(), id, owed, now, next);
      var x := SessionAt(Snapshot(), id);
      var fee := Fee(owed);
      sessions := sessions[id := x.(remainingBalance := x.remainingBalance - owed, lastPaidAt := now)];
      accruedFees := accruedFees + fee;
      ok := Transfer(owed - fee, StreamOut(id, x.provider, owed - fee, fee), callee, now);
    }

    /** `_releaseAccrued`. `called` tells whether a payment, and so an external call, was made. */
    method ReleaseAccrued(id: Id, callee: Callee, now: nat, ghost next: Cont) returns (r: Receipt, called: bool)
      modifies this
      ensures match Accrued(SessionAt(old(Snapshot()), id), now)
              case Overflow => r == Failure(Panic)
              case Nothing => r == Success && !called && Snapshot() == old(Snapshot())
              case Owed(_) =>
                match EscrowModel.ReleaseAccrued(old(Snapshot()), id, now, next)
                case Fail(error) => r == Failure(error)
                case Finish(_) => false
                case Call(s, _, _) =>
                  && called && r == (if callee.accepts then Success else Failure(TransferFailed))
                  && (callee.accepts ==> Snapshot() == Handover(s, callee.calls, now).s)
      decreases callee, 2
    {
      called := false;
      var x := SessionAt(Snapshot(), id);
      if now < x.lastPaidAt { return Failure(Panic), false; }
      var elapsed := now - x.lastPaidAt;
      if elapsed == 0 { return Success, false; }
      var owed := elapsed * x.ratePerSecond;
      if owed >= WORD { return Failure(Panic), false; }
      if owed > x.remainingBalance { owed := x.remainingBalance; }
      if owed == 0 { return Success, false; }
      OwedExactly(x, now, owed);
      var ok := PayProvider(id, owed, callee, now, next);
      return if ok then Success else Failure(TransferFailed), true;
    }

    method ReleasePayment(msg: Tx, id: Id, now: nat) returns (r: Receipt)
      requires msg.op == Op.ReleasePayment(id)
      modifies this
      ensures Matches(Exec(old(Snapshot()), msg, now), old(Snapshot()), r, Snapshot())
      decreases msg, 1
    {
      var saved := Snapshot();
      r := Open(msg);
      if r.Failure? { return; }
      var x := SessionAt(Snapshot(), id);
      if x.user == ZERO { r := Revert(saved, SessionNotFound); return; }
      if !x.isActive { r := Revert(saved, SessionNotActive); return; }
      var called;
      r, called := ReleaseAccrued(id, msg.first, now, Return);
      if r.Failure? { r := Revert(saved, r.error); return; }
      locked := saved.locked;
    }

    method SubmitProof(msg: Tx, id: Id, now: nat) returns (r: Receipt)
      requires msg.op == Op.SubmitProof(id)
      modifies this
      ensures Matches(Exec(old(Snapshot()), msg, now), old(Snapshot()), r, Snapshot())
      decreases msg, 1
    {
      var saved := Snapshot();
      r := Open(msg);
      if r.Failure? { return; }
      if msg.sender != proofAuthority && msg.sender != owner { r := Revert(saved, Unauthorised); return; }
      var x := SessionAt(Snapshot(), id);
      if x.user == ZERO { r := Revert(saved, SessionNotFound); return; }
      if !x.isActive { r := Revert(saved, SessionNotActive); return; }
      var called;
      r, called := ReleaseAccrued(id, msg.first, now, Return);
      if r.Failure? { r := Revert(saved, r.error); return; }
      locked := saved.locked;
    }

    method StopSession(msg: Tx, id: Id, now: nat) returns (r: Receipt)
      requires msg.op == Op.StopSession(id)
      modifies this
      ensures Matches(Exec(old(Snapshot()), msg, now), old(Snapshot()), r, Snapshot())
      decreases msg, 1
    {
      var saved := Snapshot();
      r := Open(msg);
      if r.Failure? { return; }
      var x := SessionAt(Snapshot(), id);
      if x.user == ZERO { r := Revert(saved, SessionNotFound); return; }
      if !x.isActive { r := Revert(saved, SessionNotActive); return; }
      if msg.sender != x.user { r := Revert(saved, Unauthorised); return; }
      var called;
      ghost var entered := Snapshot();
      r, called := ReleaseAccrued(id, msg.first, now, RefundStopped(id));
      if r.Failure? { r := Revert(saved, r.error); return; }
      ghost var released := Snapshot();
      ghost var p := Resume(released, RefundStopped(id));
      assert !called ==> Begin(entered, msg.sender, msg.value, msg.op, now) == p;
      assert called ==>
          var h := Handover(Begin(entered, msg.sender, msg.value, msg.op, now).s, msg.first.calls, now);
          h.s == released && Exec(saved, msg, now) == Conclude(p, msg, saved.locked, h.seen, now);
      x := SessionAt(Snapshot(), id);
      var refundAmount := x.remainingBalance;
      sessions := sessions[id := x.(remainingBalance := 0, isActive := false)];
      if refundAmount > 0 {
        var ok := Transfer(refundAmount, SessionBack(id, x.user, refundAmount),
                           if called then msg.second else msg.first, now);
        if !ok { r := Revert(saved, TransferFailed); return; }
      }
      locked := saved.locked;
    }

    method SlashProvider(msg: Tx, id: Id, now: nat) returns (r: Receipt)
      requires msg.op == Op.SlashProvider(id)
      modifies this
      ensures Matches(Exec(old(Snapshot()), msg, now), old(Snapshot()), r, Snapshot())
      decreases msg, 1
    {
      var saved := Snapshot();
      r := Open(msg);
      if r.Failure? { return; }
      if msg.sender != proofAuthority && msg.sender != owner { r := Revert(saved, Unauthorised); return; }
      var x := SessionAt(Snapshot(), id);
      if x.user == ZERO { r := Revert(saved, SessionNotFound); return; }
      if !x.isActive { r := Revert(saved, SessionNotActive); return; }
      var refundAmount := x.remainingBalance;
      ghost var entered := Snapshot();
      sessions := sessions[id := x.(remainingBalance := 0, isActive := false)];
      ghost var p := BeginSlash(entered, msg.sender, id);
      assert p == Call(Snapshot(), false, RefundSlashed(id, x.user, refundAmount));
      // try registry.slash(...) {} catch {}: a failed call leaves no trace.
      if msg.first.accepts {
        CallBack(msg.first.calls, now);
      }
      assert Exec(saved, msg, now)
          == Conclude(Resume(Snapshot(), p.next), msg, saved.locked, Handover(p.s, msg.first.calls, now).seen, now);
      if refundAmount > 0 {
        var ok := Transfer(refundAmount, SessionBack(id, x.user, refundAmount), msg.second, now);
        if !ok { r := Revert(saved, TransferFailed); return; }
      }
      locked := saved.locked;
    }

    method SetAuthority(msg: Tx, now: nat) returns (r: Receipt)
      requires msg.op.SetReleaseAuthority? || msg.op.SetProofAuthority? || msg.op.TransferOwnership?
      modifies this
      ensures Matches(Exec(old(Snapshot()), msg, now), old(Snapshot()), r, Snapshot())
    {
      var saved := Snapshot();
      r := Open(msg);
      if r.Failure? { return; }
      if msg.sender != owner { r := Revert(saved, NotOwner); return; }
      if msg.op.SetReleaseAuthority? {
        releaseAuthority := msg.op.authority;
      } else if msg.op.SetProofAuthority? {
        proofAuthority := msg.op.authority;
      } else {
        owner := msg.op.newOwner;
      }
    }

    /** Dispatch of a message to the function it names. */
    method Execute(msg: Tx, now: nat) returns (r: Receipt)
      modifies this
      ensures Matches(Exec(old(Snapshot()), msg, now), old(Snapshot()), r, Snapshot())
      decreases msg, 2
    {
      match msg.op
      case Deposit(id, provider) => r := Deposit(msg, id, provider, now);
      case Refund(id) => r := Refund(msg, id, now);
      case Release(id) => r := Release(msg, id, now);
      case Dispute(id) => r := Dispute(msg, id, now);
      case ResolveDispute(id, toProvider) => r := ResolveDispute(msg, id, toProvider, now);
      case WithdrawFees => r := WithdrawFees(msg, now);
      case StartSession(id, provider, rate) => r := StartSession(msg, id, provider, rate, now);
      case ReleasePayment(id) => r := ReleasePayment(msg, id, now);
      case SubmitProof(id) => r := SubmitProof(msg, id, now);
      case StopSession(id) => r := StopSession(msg, id, now);
      case SlashProvider(id) => r := SlashProvider(msg, id, now);
      case SetReleaseAuthority(_) => r := SetAuthority(msg, now);
      case SetProofAuthority(_) => r := SetAuthority(msg, now);
      case TransferOwnership(_) => r := SetAuthority(msg, now);
    }

    /** `isLockupExpired`. */
    method IsLockupExpired(id: Id, now: nat) returns (expired: bool)
      ensures expired == EscrowLifecycle.LockupExpired(Snapshot(), id, now)
    {
      var e := EscrowAt(Snapshot(), id);
      if e.user == ZERO { return false; }
      return now >= e.depositedAt + LOCKUP_PERIOD;
    }

    /** `pendingPayment`; `Overflow` is a revert of the checked arithmetic. */
    method PendingPayment(id: Id, now: nat) returns (p: Accrual)
      ensures p == StreamingSchedule.PendingPayment(SessionAt(Snapshot(), id), now)
    {
      var x := SessionAt(Snapshot(), id);
      if !x.isActive { return Owed(0); }
      if now < x.lastPaidAt { return Overflow; }
      var owed := (now - x.lastPaidAt) * x.ratePerSecond;
      if owed >= WORD { return Overflow; }
      return Owed(if owed > x.remainingBalance then x.remainingBalance else owed);
    }
  }
}
