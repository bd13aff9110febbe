/** Streaming does not depend on when payments were released in between. */
module StreamingSchedule {
  import opened Chain
  import opened EscrowModel
  import opened EscrowSafety
  import opened SessionBooks
  import opened Streaming
  import opened EscrowRuns

  /** What is left of `x` at time `t` by its rate alone. */
  function LeftAt(x: Session, t: nat): nat {
    if t < x.lastPaidAt then x.remainingBalance
    else x.remainingBalance - Min(x.remainingBalance, (t - x.lastPaidAt) * x.ratePerSecond)
  }

  /** `pendingPayment`, whose arithmetic is checked. */
  function PendingPayment(x: Session, now: nat): Accrual {
    if !x.isActive then Owed(0)
    else if now < x.lastPaidAt || (now - x.lastPaidAt) * x.ratePerSecond >= WORD then Overflow
    else Owed(Min((now - x.lastPaidAt) * x.ratePerSecond, x.remainingBalance))
  }

  /** What the accounts say before anything happened to a session, and while it is active. */
  lemma BlankOrActive(s: State, id: Id)
    requires AllInBooks(s, Return)
    ensures SessionAt(s, id).user == ZERO ==> BooksOf(s.journal, id) == NO_BOOKS
    ensures SessionAt(s, id).isActive ==> BooksOf(s.journal, id).refund == 0
  {
    assert InBooks(s, Return, id);
  }

  /** A started session holds four fifths of the deposit and its clock starts now. */
  lemma StartedSession(s: State, tx: Tx, now: nat)
    requires Inv(s) && tx.op.StartSession? && Exec(s, tx, now).Done?
    ensures var x := SessionAt(Exec(s, tx, now).s, tx.op.id);
            x == Session(tx.sender, tx.op.provider, tx.op.rate, tx.value - tx.value / 5, now, true)
    ensures var b := BooksOf(Exec(s, tx, now).s.journal, tx.op.id);
            b == Books(tx.value, tx.value / 5, 0, 0, 0, 0)
  {
    var op := tx.op;
    var p := BeginStart(Admit(s, tx.value, op), tx.sender, tx.value, op.id, op.provider, op.rate, now);
    HandoverIsFrozen(p.s, tx.first.calls, now);
    assert Exec(s, tx, now).s == Handover(p.s, tx.first.calls, now).s.(locked := false);
    assert SessionAt(s, op.id).user == ZERO;
    StartedBooks(s, p.s, op.id, SessionAt(p.s, op.id), tx.value, op.provider);
  }

  lemma StartedBooks(s: State, s': State, id: Id, x: Session, value: nat, provider: Address)
    requires AllInBooks(s, Return) && SessionAt(s, id).user == ZERO
    requires s'.sessions == s.sessions[id := x]
    requires s'.journal == s.journal + [SessionIn(id, value)] + [UpfrontOut(id, provider, Upfront(value))]
    ensures BooksOf(s'.journal, id) == Books(value, value / 5, 0, 0, 0, 0)
  {
    var e, e' := SessionIn(id, value), UpfrontOut(id, provider, Upfront(value));
    assert s'.journal == s.journal + [e, e'];
    StartTouches(s, s', id, x, e, e');
    BlankOrActive(s, id);
  }

  /** A release that goes through passed the checks. */
  lemma ReleaseBegins(s: State, tx: Tx, now: nat)
    requires Inv(s) && (tx.op.ReleasePayment? || tx.op.SubmitProof?) && Exec(s, tx, now).Done?
    ensures var x := SessionAt(s, tx.op.id); var s0 := Admit(s, tx.value, tx.op);
            && x.isActive && x.user != ZERO && s0.locked
            && var p := ReleaseAccrued(s0, tx.op.id, now, Return);
               !p.Fail? && Begin(s0, tx.sender, tx.value, tx.op, now) == p
  {
  }

  lemma DrainLeaves(s: State, id: Id, now: nat)
    requires !ReleaseAccrued(s, id, now, Return).Fail?
    ensures var x := SessionAt(s, id); var x' := SessionAt(ReleaseAccrued(s, id, now, Return).s, id);
            x.lastPaidAt <= now && x'.remainingBalance == LeftAt(x, now) && x'.isActive == x.isActive
  {
    AccruedLeft(SessionAt(s, id), now);
  }

  /** A release drains the session to what its clock and rate leave at that time. */
  lemma ReleaseLeaves(s: State, tx: Tx, now: nat)
    requires Inv(s) && (tx.op.ReleasePayment? || tx.op.SubmitProof?) && Exec(s, tx, now).Done?
    ensures var x := SessionAt(s, tx.op.id); var x' := SessionAt(Exec(s, tx, now).s, tx.op.id);
            && x.isActive && x.user != ZERO && x.lastPaidAt <= now
            && x'.remainingBalance == LeftAt(x, now) && x'.isActive
  {
    ReleaseBegins(s, tx, now);
    var s0 := Admit(s, tx.value, tx.op);
    var p := ReleaseAccrued(s0, tx.op.id, now, Return);
    DrainLeaves(s0, tx.op.id, now);
    if p.Call? {
      HandoverIsFrozen(p.s, tx.first.calls, now);
    }
  }

  lemma LeftAtMeans(x: Session, t: nat)
    requires x.lastPaidAt <= t
    ensures LeftAt(x, t) == x.remainingBalance - Min(x.remainingBalance, (t - x.lastPaidAt) * x.ratePerSecond)
  {
  }

  /** Running on leaves what stands at a later time unchanged. */
  lemma LeftAtDripped(x: Session, b: Books, x': Session, b': Books, t: nat)
    requires Dripped(x, b, x', b', t) && x'.isActive && x.lastPaidAt <= t
    ensures LeftAt(x', t) == LeftAt(x, t)
  {
    Distribute(x.ratePerSecond, x'.lastPaidAt - x.lastPaidAt, t - x'.lastPaidAt);
  }

  /** Whatever happened before `t`, a session that is still active stands at `t` where its rate puts it. */
  lemma StandsAt(s: State, txs: seq<Timed>, t: nat, id: Id)
    requires Inv(s) && By(txs, t)
    requires SessionAt(s, id).user != ZERO && SessionAt(s, id).lastPaidAt <= t
    ensures Inv(Run(s, txs))
    ensures SessionAt(Run(s, txs), id).isActive ==> LeftAt(SessionAt(Run(s, txs), id), t) == LeftAt(SessionAt(s, id), t)
  {
    RunKeeps(s, txs, t);
    assert Drips(s, Run(s, txs), t, id);
    if SessionAt(Run(s, txs), id).isActive {
      LeftAtDripped(SessionAt(s, id), BooksOf(s.journal, id),
                    SessionAt(Run(s, txs), id), BooksOf(Run(s, txs).journal, id), t);
    }
  }

  /** Schedule independence. Whatever was released, proved or called back before time `t`, a release at
      `t` leaves of the session exactly what one single release at `t` would have left. */
  lemma ScheduleIndependent(s: State, txs: seq<Timed>, t: nat, tx: Tx)
    requires Inv(s) && By(txs, t) && (tx.op.ReleasePayment? || tx.op.SubmitProof?)
    requires SessionAt(s, tx.op.id).user != ZERO && SessionAt(s, tx.op.id).lastPaidAt <= t
    requires Exec(Run(s, txs), tx, t).Done?
    ensures var x := SessionAt(s, tx.op.id);
            SessionAt(Exec(Run(s, txs), tx, t).s, tx.op.id).remainingBalance
            == x.remainingBalance - Min(x.remainingBalance, (t - x.lastPaidAt) * x.ratePerSecond)
  {
    ReleaseAfterRun(s, txs, t, tx);
    LeftAtMeans(SessionAt(s, tx.op.id), t);
  }

  /** What `_releaseAccrued` leaves when its transfer goes through, or when there is nothing to pay. */
  lemma AccruedLeft(x: Session, now: nat)
    requires Accrued(x, now) != Overflow
    ensures x.lastPaidAt <= now
    ensures LeftAt(x, now) == x.remainingBalance - (if Accrued(x, now).Owed? then Accrued(x, now).amount else 0)
  {
    if Accrued(x, now) == Nothing && now > x.lastPaidAt {
      assert Min((now - x.lastPaidAt) * x.ratePerSecond, x.remainingBalance) == 0;
    }
  }

  /** The refund of the second half of a stop is posted as it is paid. */
  lemma CloseRefunds(s: State, id: Id)
    requires SessionAt(s, id).user != ZERO && BooksOf(s.journal, id).refund == 0
    requires !Resume(s, RefundStopped(id)).Fail?
    ensures BooksOf(Resume(s, RefundStopped(id)).s.journal, id).refund == SessionAt(s, id).remainingBalance
  {
    var x := SessionAt(s, id);
    Posted(s.journal, SessionBack(id, x.user, x.remainingBalance), id);
  }

  /** The second half of a stop, and whatever the user does with the money. */
  lemma CloseConcludes(s: State, id: Id, tx: Tx, seen: seq<State>, now: nat)
    requires s.locked && SessionAt(s, id).user != ZERO && BooksOf(s.journal, id).refund == 0
    requires Conclude(Resume(s, RefundStopped(id)), tx, false, seen, now).Done?
    ensures var s' := Conclude(Resume(s, RefundStopped(id)), tx, false, seen, now).s;
            && BooksOf(s'.journal, id).refund == SessionAt(s, id).remainingBalance
            && SessionAt(s', id) == SessionAt(s, id).(isActive := false, remainingBalance := 0)
  {
    CloseRefunds(s, id);
    var p := Resume(s, RefundStopped(id));
    if p.Call? {
      HandoverIsFrozen(p.s, tx.second.calls, now);
    }
  }

  lemma StopWithNothingDue(s: State, tx: Tx, now: nat)
    requires Inv(s) && tx.op.StopSession? && Exec(s, tx, now).Done? && Accrued(SessionAt(s, tx.op.id), now) == Nothing
    ensures var x := SessionAt(s, tx.op.id); var s' := Exec(s, tx, now).s;
            && BooksOf(s'.journal, tx.op.id).refund == x.remainingBalance
            && SessionAt(s', tx.op.id) == x.(isActive := false, remainingBalance := 0)
  {
    var id := tx.op.id;
    var s0 := Admit(s, tx.value, tx.op);
    BlankOrActive(s, id);
    CloseRefunds(s0, id);
    var p := Resume(s0, RefundStopped(id));
    assert p == Begin(s0, tx.sender, tx.value, tx.op, now);
    if p.Call? {
      HandoverIsFrozen(p.s, tx.first.calls, now);
    }
  }

  /** What accrued is drained and paid in one piece. */
  lemma AccruedIsPaid(s: State, id: Id, owed: nat, now: nat, next: Cont)
    requires Accrued(SessionAt(s, id), now) == Owed(owed)
    ensures var x := SessionAt(s, id); var fee := Fee(owed);
            ReleaseAccrued(s, id, now, next)
            == Pay(s.(sessions := s.sessions[id := x.(remainingBalance := x.remainingBalance - owed,
                                                      lastPaidAt := now)],
                      accruedFees := s.accruedFees + fee),
                   owed - fee, StreamOut(id, x.provider, owed - fee, fee), next)
  {
  }

  lemma PaymentKeepsRefund(s: State, s1: State, id: Id, to: Address, net: nat, fee: nat)
    requires s1.journal == s.journal + [StreamOut(id, to, net, fee)]
    ensures BooksOf(s1.journal, id).refund == BooksOf(s.journal, id).refund
  {
    Posted(s.journal, StreamOut(id, to, net, fee), id);
  }

  /** A stop that goes through passed the checks before its first payment. */
  lemma StopBegins(s: State, tx: Tx, now: nat)
    requires Inv(s) && tx.op.StopSession? && Exec(s, tx, now).Done?
    ensures var x := SessionAt(s, tx.op.id); var s0 := Admit(s, tx.value, tx.op);
            && x.isActive && x.user == tx.sender && s0.locked && BooksOf(s0.journal, tx.op.id).refund == 0
            && var p := ReleaseAccrued(s0, tx.op.id, now, RefundStopped(tx.op.id));
               !p.Fail? && Begin(s0, tx.sender, tx.value, tx.op, now) == p
  {
    BlankOrActive(s, tx.op.id);
  }

  lemma StopWithPayment(s: State, tx: Tx, now: nat)
    requires Inv(s) && tx.op.StopSession? && Exec(s, tx, now).Done? && Accrued(SessionAt(s, tx.op.id), now).Owed?
    ensures var x := SessionAt(s, tx.op.id); var s' := Exec(s, tx, now).s;
            && BooksOf(s'.journal, tx.op.id).refund == x.remainingBalance - Accrued(x, now).amount
            && SessionAt(s', tx.op.id) == x.(isActive := false, remainingBalance := 0, lastPaidAt := now)
  {
    var id := tx.op.id;
    StopBegins(s, tx, now);
    var s0 := Admit(s, tx.value, tx.op);
    var s1 := ReleaseAccrued(s0, id, now, RefundStopped(id)).s;
    var owed := Accrued(SessionAt(s, id), now).amount;
    AccruedIsPaid(s0, id, owed, now, RefundStopped(id));
    PaymentKeepsRefund(s0, s1, id, SessionAt(s, id).provider, owed - Fee(owed), Fee(owed));
    HandoverIsFrozen(s1, tx.first.calls, now);
    var h := Handover(s1, tx.first.calls, now);
    assert Exec(s, tx, now) == Conclude(Resume(h.s, RefundStopped(id)), tx, false, h.seen, now);
    CloseConcludes(h.s, id, tx, h.seen, now);
  }

  /** A stop refunds to the user exactly what the session's clock and rate leave, and closes the session. */
  lemma StopRefunds(s: State, tx: Tx, now: nat)
    requires Inv(s) && tx.op.StopSession? && Exec(s, tx, now).Done?
    ensures var x := SessionAt(s, tx.op.id); var s' := Exec(s, tx, now).s;
            && x.isActive && x.user == tx.sender && x.lastPaidAt <= now
            && BooksOf(s'.journal, tx.op.id).refund == LeftAt(x, now)
            && !SessionAt(s', tx.op.id).isActive && SessionAt(s', tx.op.id).remainingBalance == 0
  {
    var x := SessionAt(s, tx.op.id);
    assert Begin(Admit(s, tx.value, tx.op), tx.sender, tx.value, tx.op, now)
        == BeginStop(Admit(s, tx.value, tx.op), tx.sender, tx.op.id, now);
    AccruedLeft(x, now);
    if Accrued(x, now) == Nothing {
      StopWithNothingDue(s, tx, now);
    } else {
      StopWithPayment(s, tx, now);
    }
  }

  lemma StopRefundsLeft(s: State, tx: Tx, now: nat, left: nat)
    requires Inv(s) && tx.op.StopSession? && Exec(s, tx, now).Done?
    requires SessionAt(s, tx.op.id).isActive ==> LeftAt(SessionAt(s, tx.op.id), now) == left
    ensures BooksOf(Exec(s, tx, now).s.journal, tx.op.id).refund == left
  {
    StopRefunds(s, tx, now);
  }

  lemma StopAfterRun(s: State, txs: seq<Timed>, t: nat, tx: Tx)
    requires Inv(s) && By(txs, t) && tx.op.StopSession?
    requires SessionAt(s, tx.op.id).user != ZERO && SessionAt(s, tx.op.id).lastPaidAt <= t
    requires Exec(Run(s, txs), tx, t).Done?
    ensures BooksOf(Exec(Run(s, txs), tx, t).s.journal, tx.op.id).refund == LeftAt(SessionAt(s, tx.op.id), t)
  {
    StandsAt(s, txs, t, tx.op.id);
    StopRefundsLeft(Run(s, txs), tx, t, LeftAt(SessionAt(s, tx.op.id), t));
  }

  /** The refund of a stop at `t` depends only on `t`, not on the releases made before it. */
  lemma StopRefundDependsOnlyOnTime(s: State, txs: seq<Timed>, t: nat, tx: Tx)
    requires Inv(s) && By(txs, t) && tx.op.StopSession?
    requires SessionAt(s, tx.op.id).user != ZERO && SessionAt(s, tx.op.id).lastPaidAt <= t
    requires Exec(Run(s, txs), tx, t).Done?
    ensures var x := SessionAt(s, tx.op.id);
            BooksOf(Exec(Run(s, txs), tx, t).s.journal, tx.op.id).refund
            == x.remainingBalance - Min(x.remainingBalance, (t - x.lastPaidAt) * x.ratePerSecond)
  {
    StopAfterRun(s, txs, t, tx);
    LeftAtMeans(SessionAt(s, tx.op.id), t);
  }

  /** What a session started at `t0` holds at `t` by its rate alone: escrowed - min(escrowed, rate * (t - t0)),
      where `escrowed` is the four fifths of the deposit that are held back. */
  function LeftFromStart(start: Tx, t0: nat, t: nat): nat
    requires start.op.StartSession? && t0 <= t
  {
    var escrowed := start.value - start.value / 5;
    escrowed - Min(escrowed, (t - t0) * start.op.rate)
  }

  lemma StartLeaves(s: State, start: Tx, t0: nat, t: nat)
    requires Inv(s) && start.op.StartSession? && Exec(s, start, t0).Done? && t0 <= t
    ensures var s1 := Exec(s, start, t0).s; var x := SessionAt(s1, start.op.id);
            Inv(s1) && x.user != ZERO && x.lastPaidAt <= t && LeftAt(x, t) == LeftFromStart(start, t0, t)
  {
    StartedSession(s, start, t0);
    ExecKeeps(s, start, t0);
  }

  lemma ReleaseAfterRun(s: State, txs: seq<Timed>, t: nat, tx: Tx)
    requires Inv(s) && By(txs, t) && (tx.op.ReleasePayment? || tx.op.SubmitProof?)
    requires SessionAt(s, tx.op.id).user != ZERO && SessionAt(s, tx.op.id).lastPaidAt <= t
    requires Exec(Run(s, txs), tx, t).Done?
    ensures SessionAt(Exec(Run(s, txs), tx, t).s, tx.op.id).remainingBalance == LeftAt(SessionAt(s, tx.op.id), t)
  {
    StandsAt(s, txs, t, tx.op.id);
    ReleaseLeaves(Run(s, txs), tx, t);
  }

  /** From the start of a session: whatever happened in between, a release at `t` leaves what the rate leaves. */
  lemma ReleaseFromStart(s: State, start: Tx, t0: nat, txs: seq<Timed>, t: nat, tx: Tx)
    requires Inv(s) && start.op.StartSession? && Exec(s, start, t0).Done? && t0 <= t && By(txs, t)
    requires (tx.op.ReleasePayment? || tx.op.SubmitProof?) && tx.op.id == start.op.id
    requires Exec(Run(Exec(s, start, t0).s, txs), tx, t).Done?
    ensures SessionAt(Exec(Run(Exec(s, start, t0).s, txs), tx, t).s, tx.op.id).remainingBalance
         == LeftFromStart(start, t0, t)
  {
    StartLeaves(s, start, t0, t);
    ReleaseAfterRun(Exec(s, start, t0).s, txs, t, tx);
  }

  /** And a stop at `t` refunds it. */
  lemma StopFromStart(s: State, start: Tx, t0: nat, txs: seq<Timed>, t: nat, tx: Tx)
    requires Inv(s) && start.op.StartSession? && Exec(s, start, t0).Done? && t0 <= t && By(txs, t)
    requires tx.op.StopSession? && tx.op.id == start.op.id
    requires Exec(Run(Exec(s, start, t0).s, txs), tx, t).Done?
    ensures BooksOf(Exec(Run(Exec(s, start, t0).s, txs), tx, t).s.journal, tx.op.id).refund
         == LeftFromStart(start, t0, t)
  {
    StartLeaves(s, start, t0, t);
    StopAfterRun(Exec(s, start, t0).s, txs, t, tx);
  }

  lemma PendingMatches(x: Session, now: nat)
    requires x.isActive
    ensures PendingPayment(x, now) == Overflow <==> Accrued(x, now) == Overflow
    ensures PendingPayment(x, now).Owed? ==> x.remainingBalance == LeftAt(x, now) + PendingPayment(x, now).amount
  {
  }

  /** `pendingPayment` is what the next release drains, and it reverts only where the release would. */
  lemma PendingIsWhatReleaseDrains(s: State, tx: Tx, now: nat)
    requires Inv(s) && (tx.op.ReleasePayment? || tx.op.SubmitProof?)
    ensures var pending := PendingPayment(SessionAt(s, tx.op.id), now);
            && (pending == Overflow ==> Exec(s, tx, now).Reverted?)
            && (Exec(s, tx, now).Done? ==>
                  && pending.Owed?
                  && SessionAt(s, tx.op.id).remainingBalance
                     == SessionAt(Exec(s, tx, now).s, tx.op.id).remainingBalance + pending.amount)
  {
    var x := SessionAt(s, tx.op.id);
    if Exec(s, tx, now).Done? {
      ReleaseLeaves(s, tx, now);
      PendingMatches(x, now);
      assert Accrued(x, now) != Overflow by {
        assert Begin(Admit(s, tx.value, tx.op), tx.sender, tx.value, tx.op, now)
            == ReleaseAccrued(Admit(s, tx.value, tx.op), tx.op.id, now, Return);
      }
    }
  }

  // ----- Payouts do not fail for lack of funds -----

  lemma EnoughHeld<V>(m: map<Id, V>, f: V -> nat, id: Id)
    requires id in m
    ensures f(m[id]) <= Total(m, f)
  {
    TotalSplit(m, f, id);
  }

  /** In a solvent state the first payment of any call is funded. */
  lemma BeginIsFunded(s: State, sender: Account, value: nat, op: Op, now: nat)
    requires Keyed(s) && s.balance == Liabilities(s) + value
    ensures Begin(s, sender, value, op, now) != Fail(TransferFailed)
  {
    if op.WithdrawFees? || op.StartSession? || !Guarded(op) || op.Deposit? {
    } else if op.Refund? || op.Release? || op.ResolveDispute? {
      if op.id in s.escrows {
        EnoughHeld(s.escrows, Held, op.id);
      }
    } else if op.id in s.sessions {
      EnoughHeld(s.sessions, Remaining, op.id);
    }
  }

  lemma ResumeIsFunded(s: State, next: Cont)
    requires Solvent(s, next)
    ensures Resume(s, next) != Fail(TransferFailed)
  {
    if next.RefundStopped? && next.id in s.sessions {
      EnoughHeld(s.sessions, Remaining, next.id);
    }
  }

  /** A release goes through exactly when the guard is free, the session is active, the checked product
      fits in a word, no value is attached, the caller may ask, and the provider takes the money. */
  lemma ReleaseSucceedsIff(s: State, tx: Tx, now: nat)
    requires Inv(s) && tx.op.ReleasePayment?
    ensures var x := SessionAt(s, tx.op.id);
            Exec(s, tx, now).Done? <==>
              && tx.value == 0 && x.user != ZERO && x.isActive && x.lastPaidAt <= now
              && (now - x.lastPaidAt) * x.ratePerSecond < WORD
              && (Accrued(x, now).Owed? ==> tx.first.accepts)
  {
    var s0 := Admit(s, tx.value, tx.op);
    AdmitKeeps(s, tx.value, tx.op, now);
    BeginIsFunded(s0, tx.sender, tx.value, tx.op, now);
  }

  // ----- Slashing and stopping -----

  /** What the slash pays back, seen from the state in which the registry call returned. */
  lemma SlashConcludes(s: State, next: Cont, tx: Tx, seen: seq<State>, now: nat)
    requires InvDuring(s, next) && s.locked && next.RefundSlashed?
    ensures var o := Conclude(Resume(s, next), tx, false, seen, now);
            && (o.Done? <==> (next.amount > 0 ==> tx.second.accepts))
            && (o.Done? ==>
                  && BooksOf(o.s.journal, next.id).refund == BooksOf(s.journal, next.id).refund + next.amount
                  && SessionAt(o.s, next.id) == SessionAt(s, next.id))
  {
    ResumeIsFunded(s, next);
    Posted(s.journal, SessionBack(next.id, next.user, next.amount), next.id);
    var p := Resume(s, next);
    if p.Call? {
      HandoverIsFrozen(p.s, tx.second.calls, now);
    }
  }

  /** A slash refunds the full remainder, accrued pay included. Whether it goes through does not depend on
      the registry call: it needs authority, an active session, and a user who takes the refund. */
  lemma SlashRefundsFully(s: State, tx: Tx, now: nat)
    requires Inv(s) && tx.op.SlashProvider?
    ensures var x := SessionAt(s, tx.op.id);
            Exec(s, tx, now).Done? <==>
              && tx.value == 0 && (tx.sender == s.proofAuthority || tx.sender == s.owner)
              && x.user != ZERO && x.isActive && (x.remainingBalance > 0 ==> tx.second.accepts)
    ensures Exec(s, tx, now).Done? ==>
              var s' := Exec(s, tx, now).s; var x := SessionAt(s, tx.op.id);
              && BooksOf(s'.journal, tx.op.id).refund == x.remainingBalance
              && SessionAt(s', tx.op.id) == x.(remainingBalance := 0, isActive := false)
  {
    var s0 := Admit(s, tx.value, tx.op);
    var p := BeginSlash(s0, tx.sender, tx.op.id);
    if tx.value == 0 && p.Call? {
      AdmitKeeps(s, tx.value, tx.op, now);
      BeginKeeps(s0, tx.sender, tx.value, tx.op, now);
      HandoverKeeps(p.s, p.next, tx.first.calls, now);
      HandoverIsFrozen(p.s, tx.first.calls, now);
      var h := Handover(p.s, tx.first.calls, now);
      SlashConcludes(if tx.first.accepts then h.s else p.s, p.next, tx, h.seen, now);
      BlankOrActive(s, tx.op.id);
    }
  }

  /** A rate that overflows the checked product locks the user's exit: from then on, at every later time,
      releases and stops revert while the session stands. Slashing still works, by the result above. */
  lemma OverflowBlocksExit(s: State, tx: Tx, now: nat, later: nat)
    requires Inv(s) && (tx.op.ReleasePayment? || tx.op.SubmitProof? || tx.op.StopSession?)
    requires var x := SessionAt(s, tx.op.id);
             x.lastPaidAt <= now <= later && (now - x.lastPaidAt) * x.ratePerSecond >= WORD
    ensures Exec(s, tx, later).Reverted?
  {
    StaysOverflowed(SessionAt(s, tx.op.id), now, later);
  }

  lemma StaysOverflowed(x: Session, now: nat, later: nat)
    requires x.lastPaidAt <= now <= later && (now - x.lastPaidAt) * x.ratePerSecond >= WORD
    ensures Accrued(x, later) == Overflow
  {
    Distribute(x.ratePerSecond, now - x.lastPaidAt, later - now);
  }
}
