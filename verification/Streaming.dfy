/** How streaming sessions and one-shot escrows may change over time. */
module Streaming {
  import opened Chain
  import opened EscrowModel
  import opened EscrowSafety
  import opened SessionBooks

  /** What may become of a session by time `t`. An active session has drained exactly what its clock
      and rate say, however often it was released; a closed one never moves again. */
  ghost predicate Dripped(x: Session, b: Books, x': Session, b': Books, t: nat) {
    && x'.user == x.user && x'.provider == x.provider && x'.ratePerSecond == x.ratePerSecond
    && b'.deposit == b.deposit && b'.upfront == b.upfront
    && x.lastPaidAt <= x'.lastPaidAt <= Max(x.lastPaidAt, t)
    && b.Gross() <= b'.Gross() <= b.Gross() + (x'.lastPaidAt - x.lastPaidAt) * x.ratePerSecond
    && (x'.isActive ==>
          && x.isActive
          && x'.remainingBalance
             == x.remainingBalance - Min(x.remainingBalance, (x'.lastPaidAt - x.lastPaidAt) * x.ratePerSecond)
          && b'.Gross() - b.Gross() == x.remainingBalance - x'.remainingBalance)
    && (!x.isActive ==> x' == x && b'.Gross() == b.Gross())
  }

  ghost predicate Drips(s: State, s': State, t: nat, id: Id) {
    SessionAt(s, id).user != ZERO ==>
      Dripped(SessionAt(s, id), BooksOf(s.journal, id), SessionAt(s', id), BooksOf(s'.journal, id), t)
  }

  ghost predicate AllDrip(s: State, s': State, t: nat) {
    forall id :: Drips(s, s', t, id)
  }

  lemma Distribute(rate: nat, a: nat, b: nat)
    ensures (a + b) * rate == a * rate + b * rate
  {
  }

  lemma DrippedTwice(x: Session, b: Books, x1: Session, b1: Books, x2: Session, b2: Books, t: nat)
    requires Dripped(x, b, x1, b1, t) && Dripped(x1, b1, x2, b2, t)
    ensures Dripped(x, b, x2, b2, t)
  {
    Distribute(x.ratePerSecond, x1.lastPaidAt - x.lastPaidAt, x2.lastPaidAt - x1.lastPaidAt);
  }

  lemma AllDripTransitive(s: State, s1: State, s2: State, t: nat)
    requires AllDrip(s, s1, t) && AllDrip(s1, s2, t)
    ensures AllDrip(s, s2, t)
  {
    forall id ensures Drips(s, s2, t, id) {
      assert Drips(s, s1, t, id) && Drips(s1, s2, t, id);
      if SessionAt(s, id).user != ZERO {
        DrippedTwice(SessionAt(s, id), BooksOf(s.journal, id), SessionAt(s1, id), BooksOf(s1.journal, id),
                     SessionAt(s2, id), BooksOf(s2.journal, id), t);
      }
    }
  }

  lemma SameDripped(x: Session, b: Books, b': Books, t: nat)
    requires b' == b.(refund := b'.refund)
    ensures Dripped(x, b, x, b', t)
  {
  }

  /** The sessions and their books are the same, up to refunds paid back. */
  lemma SameDrips(s: State, s': State, t: nat)
    requires forall id :: SessionAt(s', id) == SessionAt(s, id)
    requires forall id :: BooksOf(s'.journal, id) == BooksOf(s.journal, id)
                       || BooksOf(s'.journal, id) == BooksOf(s.journal, id).(refund := BooksOf(s'.journal, id).refund)
    ensures AllDrip(s, s', t)
  {
    forall id ensures Drips(s, s', t, id) {
      assert SessionAt(s', id) == SessionAt(s, id);
      SameDripped(SessionAt(s, id), BooksOf(s.journal, id), BooksOf(s'.journal, id), t);
    }
  }

  lemma OnlyDrips(s: State, next: Cont, s': State, next': Cont, t: nat, id: Id)
    requires Only(s, next, s', next', id) && Drips(s, s', t, id)
    ensures AllDrip(s, s', t)
  {
    forall i ensures Drips(s, s', t, i) {
      if i != id {
        assert Untouched(s, next, s', next', i);
      }
    }
  }

  lemma DripDripped(x: Session, b: Books, e: Entry, owed: nat, now: nat)
    requires x.isActive && Accrued(x, now) == Owed(owed) && owed <= x.remainingBalance
    requires e.StreamOut? && e.fee == Fee(owed) && e.amount == owed - Fee(owed)
    ensures Dripped(x, b, x.(remainingBalance := x.remainingBalance - owed, lastPaidAt := now), Post(b, e, e.id), now)
  {
  }

  lemma ClosedDripped(x: Session, b: Books, b': Books, t: nat)
    requires x.isActive && b' == b.(refund := b'.refund)
    ensures Dripped(x, b, x.(remainingBalance := 0, isActive := false), b', t)
  {
  }

  lemma CloseDrips(s: State, s': State, id: Id, t: nat)
    requires SessionAt(s', id) == SessionAt(s, id).(remainingBalance := 0, isActive := false)
    requires BooksOf(s'.journal, id) == BooksOf(s.journal, id).(refund := BooksOf(s'.journal, id).refund)
    requires SessionAt(s, id).isActive
    ensures Drips(s, s', t, id)
  {
    ClosedDripped(SessionAt(s, id), BooksOf(s.journal, id), BooksOf(s'.journal, id), t);
  }

  /** The second half of a stop, with and without a refund. */
  lemma RefundedDrips(s: State, s': State, id: Id, t: nat, e: Entry)
    requires id in s.sessions && s.sessions[id].isActive && e.SessionBack? && e.id == id
    requires s'.sessions == s.sessions[id := s.sessions[id].(remainingBalance := 0, isActive := false)]
    requires s'.journal == s.journal + [e]
    ensures AllDrip(s, s', t)
  {
    OnlyOne(s, Return, s', Return, id, s'.sessions[id], e);
    CloseDrips(s, s', id, t);
    OnlyDrips(s, Return, s', Return, t, id);
  }

  lemma EmptiedDrips(s: State, s': State, id: Id, t: nat)
    requires id in s.sessions && s.sessions[id].isActive && s'.journal == s.journal
    requires s'.sessions == s.sessions[id := s.sessions[id].(remainingBalance := 0, isActive := false)]
    ensures AllDrip(s, s', t)
  {
    assert Only(s, Return, s', Return, id);
    CloseDrips(s, s', id, t);
    OnlyDrips(s, Return, s', Return, t, id);
  }

  /** The refund of a slash moves no session and only the refund in its books. */
  lemma SlashRefundDrips(s: State, s': State, id: Id, user: Address, amount: nat, t: nat)
    requires s'.sessions == s.sessions && s'.journal == s.journal + [SessionBack(id, user, amount)]
    ensures AllDrip(s, s', t)
  {
    forall i ensures BooksOf(s'.journal, i) == BooksOf(s.journal, i).(refund := BooksOf(s'.journal, i).refund) {
      Posted(s.journal, SessionBack(id, user, amount), i);
    }
    SameDrips(s, s', t);
  }

  lemma ResumeDrips(s: State, next: Cont, t: nat)
    requires Ready(s, next)
    ensures var p := Resume(s, next); p.Fail? || AllDrip(s, p.s, t)
  {
    var p := Resume(s, next);
    match next
    case Return => SameDrips(s, s, t);
    case RefundStopped(id) =>
      if p.Call? {
        RefundedDrips(s, p.s, id, t, SessionBack(id, s.sessions[id].user, s.sessions[id].remainingBalance));
      } else if p.Finish? {
        EmptiedDrips(s, p.s, id, t);
      }
    case RefundSlashed(id, user, amount) =>
      if p.Call? {
        SlashRefundDrips(s, p.s, id, user, amount, t);
      } else if p.Finish? {
        SameDrips(s, p.s, t);
      }
  }

  lemma AccrueDrips(s: State, id: Id, now: nat, next: Cont)
    requires id in s.sessions && s.sessions[id].isActive && s.sessions[id].user != ZERO
    requires next == Return || next == RefundStopped(id)
    ensures var p := ReleaseAccrued(s, id, now, next); p.Fail? || AllDrip(s, p.s, now)
  {
    var x := s.sessions[id];
    var p := ReleaseAccrued(s, id, now, next);
    match Accrued(x, now)
    case Overflow =>
    case Nothing => ResumeDrips(s, next, now);
    case Owed(owed) =>
      if p.Call? {
        var e := StreamOut(id, x.provider, owed - Fee(owed), Fee(owed));
        OnlyOne(s, Return, p.s, next, id, x.(remainingBalance := x.remainingBalance - owed, lastPaidAt := now), e);
        DripDripped(x, BooksOf(s.journal, id), e, owed, now);
        OnlyDrips(s, Return, p.s, next, now, id);
      }
  }

  lemma StartDrips(s: State, sender: Account, value: nat, id: Id, provider: Address, rate: nat, now: nat)
    ensures var p := BeginStart(s, sender, value, id, provider, rate, now); p.Fail? || AllDrip(s, p.s, now)
  {
    var p := BeginStart(s, sender, value, id, provider, rate, now);
    if p.Call? {
      var e, e' := SessionIn(id, value), UpfrontOut(id, provider, Upfront(value));
      assert p.s.journal == s.journal + [e, e'];
      StartTouches(s, p.s, id, p.s.sessions[id], e, e');
      OnlyDrips(s, Return, p.s, Return, now, id);
    }
  }

  lemma SlashDrips(s: State, sender: Account, id: Id, now: nat)
    ensures var p := BeginSlash(s, sender, id); p.Fail? || AllDrip(s, p.s, now)
  {
    var p := BeginSlash(s, sender, id);
    if p.Call? {
      ClosedDripped(SessionAt(s, id), BooksOf(s.journal, id), BooksOf(s.journal, id), now);
      assert Only(s, Return, p.s, p.next, id);
      OnlyDrips(s, Return, p.s, p.next, now, id);
    }
  }

  lemma ForeignDrips(s: State, s': State, e: Entry, t: nat)
    requires s'.sessions == s.sessions && s'.journal == s.journal + [e]
    requires e.EscrowIn? || e.EscrowOut? || e.FeesOut?
    ensures AllDrip(s, s', t)
  {
    forall i ensures BooksOf(s'.journal, i) == BooksOf(s.journal, i) {
      Posted(s.journal, e, i);
    }
    SameDrips(s, s', t);
  }

  lemma FrozenDrips(s: State, s': State, t: nat)
    requires Frozen(s, s')
    ensures AllDrip(s, s', t)
  {
    SameDrips(s, s', t);
  }

  lemma EscrowOpDrips(s: State, sender: Account, value: nat, op: Op, now: nat)
    requires op.Deposit? || op.Refund? || op.Release? || op.ResolveDispute? || op.WithdrawFees?
    ensures var p := Begin(s, sender, value, op, now); p.Fail? || AllDrip(s, p.s, now)
  {
    var p := Begin(s, sender, value, op, now);
    if !p.Fail? {
      assert p.s.journal == s.journal + [p.s.journal[|s.journal|]];
      ForeignDrips(s, p.s, p.s.journal[|s.journal|], now);
    }
  }

  lemma BeginDrips(s: State, sender: Account, value: nat, op: Op, now: nat)
    requires Keyed(s)
    ensures var p := Begin(s, sender, value, op, now); p.Fail? || AllDrip(s, p.s, now)
  {
    var p := Begin(s, sender, value, op, now);
    match op
    case StartSession(id, provider, rate) => StartDrips(s, sender, value, id, provider, rate, now);
    case ReleasePayment(id) => if SessionAt(s, id).isActive { AccrueDrips(s, id, now, Return); }
    case SubmitProof(id) => if SessionAt(s, id).isActive { AccrueDrips(s, id, now, Return); }
    case StopSession(id) => if SessionAt(s, id).isActive { AccrueDrips(s, id, now, RefundStopped(id)); }
    case SlashProvider(id) => SlashDrips(s, sender, id, now);
    case Dispute(_) => if p.Finish? { FrozenDrips(s, p.s, now); }
    case SetReleaseAuthority(_) => if p.Finish? { FrozenDrips(s, p.s, now); }
    case SetProofAuthority(_) => if p.Finish? { FrozenDrips(s, p.s, now); }
    case TransferOwnership(_) => if p.Finish? { FrozenDrips(s, p.s, now); }
    case _ => EscrowOpDrips(s, sender, value, op, now);
  }

  // ----- One-shot escrows -----

  /** Parties and amount never change; a settled escrow never changes at all. */
  ghost predicate Settling(e: Escrow, e': Escrow) {
    && e' == e.(status := e'.status)
    && (e.status == Released || e.status == Refunded ==> e' == e)
    && (e.status == Disputed ==> e'.status != Pending)
  }

  ghost predicate AllSettling(s: State, s': State) {
    forall id :: EscrowAt(s, id).user != ZERO ==> Settling(EscrowAt(s, id), EscrowAt(s', id))
  }

  lemma AllSettlingTransitive(s: State, s1: State, s2: State)
    requires AllSettling(s, s1) && AllSettling(s1, s2)
    ensures AllSettling(s, s2)
  {
    forall id | EscrowAt(s, id).user != ZERO ensures Settling(EscrowAt(s, id), EscrowAt(s2, id)) {
      assert Settling(EscrowAt(s, id), EscrowAt(s1, id));
      assert Settling(EscrowAt(s1, id), EscrowAt(s2, id));
    }
  }

  lemma FrozenSettles(s: State, s': State)
    requires Frozen(s, s')
    ensures AllSettling(s, s')
  {
  }

  lemma ResumeSettles(s: State, next: Cont)
    ensures var p := Resume(s, next); p.Fail? || AllSettling(s, p.s)
  {
    var p := Resume(s, next);
    assert !p.Fail? ==> p.s.escrows == s.escrows;
  }

  lemma AccrueSettles(s: State, id: Id, now: nat, next: Cont)
    ensures var p := ReleaseAccrued(s, id, now, next); p.Fail? || AllSettling(s, p.s)
  {
    ResumeSettles(s, next);
  }

  lemma BeginSettles(s: State, sender: Account, value: nat, op: Op, now: nat)
    ensures var p := Begin(s, sender, value, op, now); p.Fail? || AllSettling(s, p.s)
  {
    match op
    case ReleasePayment(id) => AccrueSettles(s, id, now, Return);
    case SubmitProof(id) => AccrueSettles(s, id, now, Return);
    case StopSession(id) => AccrueSettles(s, id, now, RefundStopped(id));
    case _ =>
  }
}
