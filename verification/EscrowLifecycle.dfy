/** Who is paid, and exactly when a call goes through. */
module EscrowLifecycle {
  import opened Chain
  import opened EscrowModel
  import opened EscrowSafety
  import opened EscrowTills
  import opened SessionBooks
  import opened Streaming
  import opened EscrowRuns
  import opened StreamingSchedule

  // ----- The parties of a session -----

  /** A session's money goes to its provider, and its refund to its user. */
  ghost predicate RightEntry(s: State, e: Entry) {
    match e
    case UpfrontOut(id, to, _) => SessionAt(s, id).user != ZERO && to == SessionAt(s, id).provider
    case StreamOut(id, to, _, _) => SessionAt(s, id).user != ZERO && to == SessionAt(s, id).provider
    case SessionBack(id, to, _) => SessionAt(s, id).user != ZERO && to == SessionAt(s, id).user
    case _ => true
  }

  ghost predicate RightParties(s: State) {
    forall k :: 0 <= k < |s.journal| ==> RightEntry(s, s.journal[k])
  }

  ghost predicate SameParties(s: State, s': State) {
    forall id :: SessionAt(s, id).user != ZERO ==>
      SessionAt(s', id).user == SessionAt(s, id).user && SessionAt(s', id).provider == SessionAt(s, id).provider
  }

  lemma EntriesKeepParties(s: State, s': State, es: seq<Entry>)
    requires RightParties(s) && SameParties(s, s') && s'.journal == s.journal + es
    requires forall k :: 0 <= k < |es| ==> RightEntry(s', es[k])
    ensures RightParties(s')
  {
    forall k | 0 <= k < |s'.journal| ensures RightEntry(s', s'.journal[k]) {
      if k < |s.journal| {
        assert RightEntry(s, s.journal[k]);
      } else {
        assert s'.journal[k] == es[k - |s.journal|];
      }
    }
  }

  lemma ResumeKeepsParties(s: State, next: Cont)
    requires RightParties(s) && Keyed(s) && Ready(s, next)
    ensures var p := Resume(s, next); p.Fail? || RightParties(p.s)
  {
    var p := Resume(s, next);
    if p.Call? {
      EntriesKeepParties(s, p.s, [p.s.journal[|s.journal|]]);
    } else if p.Finish? {
      EntriesKeepParties(s, p.s, []);
    }
  }

  lemma AccrueKeepsParties(s: State, id: Id, now: nat, next: Cont)
    requires RightParties(s) && Keyed(s) && SessionAt(s, id).user != ZERO && Ready(s, next)
    ensures var p := ReleaseAccrued(s, id, now, next); p.Fail? || RightParties(p.s)
  {
    var p := ReleaseAccrued(s, id, now, next);
    match Accrued(SessionAt(s, id), now)
    case Overflow =>
    case Nothing => ResumeKeepsParties(s, next);
    case Owed(_) => if p.Call? { EntriesKeepParties(s, p.s, [p.s.journal[|s.journal|]]); }
  }

  lemma BeginKeepsParties(s: State, sender: Account, value: nat, op: Op, now: nat)
    requires RightParties(s) && Keyed(s)
    ensures var p := Begin(s, sender, value, op, now); p.Fail? || RightParties(p.s)
  {
    var p := Begin(s, sender, value, op, now);
    match op
    case StartSession(id, provider, _) =>
      if p.Call? {
        var es := [SessionIn(id, value), UpfrontOut(id, provider, Upfront(value))];
        assert p.s.journal == s.journal + es;
        EntriesKeepParties(s, p.s, es);
      }
    case ReleasePayment(id) => if SessionAt(s, id).user != ZERO { AccrueKeepsParties(s, id, now, Return); }
    case SubmitProof(id) => if SessionAt(s, id).user != ZERO { AccrueKeepsParties(s, id, now, Return); }
    case StopSession(id) =>
      if SessionAt(s, id).user != ZERO && SessionAt(s, id).isActive {
        AccrueKeepsParties(s, id, now, RefundStopped(id));
      }
    case _ => OtherKeepsParties(s, sender, value, op, now);
  }

  /** Calls about one-shot escrows, fees and ownership, and the first half of a slash. */
  lemma OtherKeepsParties(s: State, sender: Account, value: nat, op: Op, now: nat)
    requires RightParties(s)
    requires !op.StartSession? && !op.ReleasePayment? && !op.SubmitProof? && !op.StopSession?
    ensures var p := Begin(s, sender, value, op, now); p.Fail? || RightParties(p.s)
  {
    var p := Begin(s, sender, value, op, now);
    if !p.Fail? {
      assert SameParties(s, p.s);
      EntriesKeepParties(s, p.s, p.s.journal[|s.journal|..]);
    }
  }

  lemma FrozenKeepsParties(s: State, s': State)
    requires RightParties(s) && s'.sessions == s.sessions && s'.journal == s.journal
    ensures RightParties(s')
  {
    EntriesKeepParties(s, s', []);
  }

  lemma EnteredKeepsParties(s: State, tx: Tx, now: nat)
    requires Inv(s) && RightParties(s) && Enter(s, tx.sender, tx.value, tx.op) == Open
    ensures var p := Begin(Admit(s, tx.value, tx.op), tx.sender, tx.value, tx.op, now);
            && (p.Fail? || RightParties(p.s))
            && (p.Call? ==> p.s.locked && Keyed(p.s) && Ready(p.s, p.next))
  {
    var s0 := Admit(s, tx.value, tx.op);
    AdmitKeeps(s, tx.value, tx.op, now);
    BeginKeeps(s0, tx.sender, tx.value, tx.op, now);
    BeginKeepsLock(s0, tx.sender, tx.value, tx.op, now);
    FrozenKeepsParties(s, s0);
    BeginKeepsParties(s0, tx.sender, tx.value, tx.op, now);
  }

  lemma ConcludeKeepsParties(p: Phase, tx: Tx, seen: seq<State>, now: nat)
    requires p.Fail? || RightParties(p.s)
    requires p.Call? ==> p.s.locked
    ensures var o := Conclude(p, tx, false, seen, now); o.Done? ==> RightParties(o.s)
  {
    var o := Conclude(p, tx, false, seen, now);
    if p.Call? {
      HandoverIsFrozen(p.s, tx.second.calls, now);
    }
    if o.Done? {
      FrozenKeepsParties(p.s, o.s);
    }
  }

  lemma ExecKeepsParties(s: State, tx: Tx, now: nat)
    requires Inv(s) && RightParties(s)
    ensures RightParties(After(s, Exec(s, tx, now)))
  {
    if Enter(s, tx.sender, tx.value, tx.op) == Open {
      EnteredKeepsParties(s, tx, now);
      match Begin(Admit(s, tx.value, tx.op), tx.sender, tx.value, tx.op, now)
      case Fail(_) =>
      case Finish(s1) => FrozenKeepsParties(s1, s1.(locked := false));
      case Call(s1, mustAccept, next) =>
        HandoverIsFrozen(s1, tx.first.calls, now);
        var h := Handover(s1, tx.first.calls, now);
        var r := if tx.first.accepts then h.s else s1;
        FrozenKeepsParties(s1, r);
        ResumeKeepsParties(r, next);
        ResumeKeepsLock(r, next);
        ConcludeKeepsParties(Resume(r, next), tx, h.seen, now);
    }
  }

  lemma {:induction false} RunKeepsParties(s: State, txs: seq<Timed>)
    requires Inv(s) && RightParties(s)
    ensures RightParties(Run(s, txs))
    decreases |txs|
  {
    if txs != [] {
      ExecKeeps(s, txs[0].tx, txs[0].now);
      ExecKeepsParties(s, txs[0].tx, txs[0].now);
      RunKeepsParties(After(s, Exec(s, txs[0].tx, txs[0].now)), txs[1..]);
    }
  }

  /** In every run each up-front part and each release went to the session's provider, and each refund to its
      user, whoever made the call. */
  lemma SessionPaysItsParties(owner: Account, authority: Address, txs: seq<Timed>, k: nat)
    requires k < |Run(Init(owner, authority), txs).journal|
    ensures var s := Run(Init(owner, authority), txs);
            match s.journal[k]
            case UpfrontOut(id, to, _) => to == SessionAt(s, id).provider
            case StreamOut(id, to, _, _) => to == SessionAt(s, id).provider
            case SessionBack(id, to, _) => to == SessionAt(s, id).user
            case _ => true
  {
    InitInv(owner, authority);
    RunKeepsParties(Init(owner, authority), txs);
    assert RightEntry(Run(Init(owner, authority), txs), Run(Init(owner, authority), txs).journal[k]);
  }

  // ----- One-shot escrows -----

  /** From a deposit on, whatever runs: the parties, the amount and the deposit time are those of the deposit,
      and what was paid is nothing while the escrow is open, all of it to the depositor, or nine tenths to the
      named provider with a tenth kept. */
  lemma DepositLifecycle(s: State, d: Tx, start: nat, txs: seq<Timed>)
    requires Inv(s) && d.op.Deposit? && Exec(s, d, start).Done?
    ensures var s' := Run(Exec(s, d, start).s, txs); var e := EscrowAt(s', d.op.id);
            && e == Escrow(d.sender, d.op.provider, d.value, start, e.status)
            && EscrowTill(s'.journal, d.op.id) ==
                 (match e.status
                  case Refunded => Till(1, d.value, 1, d.sender, d.value, 0)
                  case Released => Till(1, d.value, 1, d.op.provider, d.value - d.value / 10, d.value / 10)
                  case _ => Till(1, d.value, 0, ZERO, 0, 0))
  {
    var s1 := Exec(s, d, start).s;
    ExecKeeps(s, d, start);
    RunKeepsInv(s1, txs);
    assert EscrowAt(s1, d.op.id) == Escrow(d.sender, d.op.provider, d.value, start, Pending);
    assert Settling(EscrowAt(s1, d.op.id), EscrowAt(Run(s1, txs), d.op.id));
    assert Lawful(Run(s1, txs), d.op.id);
  }

  /** What settling an escrow leaves, and when it goes through. */
  ghost predicate Settles(s: State, o: Outcome, id: Id, allowed: bool, status: Status, to: Address, fee: nat) {
    var e := EscrowAt(s, id);
    && (o.Done? <==> allowed)
    && (o.Done? ==>
          && fee <= e.amount
          && EscrowAt(o.s, id) == e.(status := status)
          && o.s.journal == s.journal + [EscrowOut(id, to, e.amount - fee, fee)]
          && o.s.accruedFees == s.accruedFees + fee)
  }

  /** A refund goes through exactly for the depositor of a pending escrow whose lockup is over. */
  lemma RefundSucceedsIff(s: State, tx: Tx, now: nat)
    requires Inv(s) && tx.op.Refund?
    ensures var e := EscrowAt(s, tx.op.id);
            Settles(s, Exec(s, tx, now), tx.op.id,
                    tx.value == 0 && e.user == tx.sender && e.status == Pending
                    && e.depositedAt + 86400 <= now && tx.first.accepts,
                    Refunded, tx.sender, 0)
  {
    SettlingCall(s, tx, now);
  }

  /** A release, exactly for the release authority or the owner while the escrow is pending. */
  lemma EscrowReleaseSucceedsIff(s: State, tx: Tx, now: nat)
    requires Inv(s) && tx.op.Release?
    ensures var e := EscrowAt(s, tx.op.id);
            Settles(s, Exec(s, tx, now), tx.op.id,
                    tx.value == 0 && (tx.sender == s.releaseAuthority || tx.sender == s.owner)
                    && e.user != ZERO && e.status == Pending && tx.first.accepts,
                    Released, e.provider, e.amount / 10)
  {
    SettlingCall(s, tx, now);
  }

  /** A dispute is resolved exactly by the owner, once raised, either way. */
  lemma ResolveSucceedsIff(s: State, tx: Tx, now: nat)
    requires Inv(s) && tx.op.ResolveDispute?
    ensures var e := EscrowAt(s, tx.op.id); var won := tx.op.toProvider;
            Settles(s, Exec(s, tx, now), tx.op.id,
                    tx.value == 0 && tx.sender == s.owner && e.user != ZERO && e.status == Disputed && tx.first.accepts,
                    if won then Released else Refunded, if won then e.provider else e.user,
                    if won then e.amount / 10 else 0)
  {
    SettlingCall(s, tx, now);
  }

  /** A settling call is funded, and foreign code cannot undo what it wrote. */
  lemma SettlingCall(s: State, tx: Tx, now: nat)
    requires Inv(s) && (tx.op.Refund? || tx.op.Release? || tx.op.ResolveDispute? || tx.op.WithdrawFees?)
    ensures var s0 := Admit(s, tx.value, tx.op);
            var p := Begin(s0, tx.sender, tx.value, tx.op, now);
            && (tx.value == 0 ==> p != Fail(TransferFailed))
            && (p.Call? ==> Frozen(p.s, Handover(p.s, tx.first.calls, now).s))
  {
    var s0 := Admit(s, tx.value, tx.op);
    AdmitKeeps(s, tx.value, tx.op, now);
    BeginIsFunded(s0, tx.sender, tx.value, tx.op, now);
    var p := Begin(s0, tx.sender, tx.value, tx.op, now);
    if p.Call? {
      HandoverIsFrozen(p.s, tx.first.calls, now);
    }
  }

  /** The fees go to the owner, all of them, exactly when the owner asks and there are any. */
  lemma WithdrawSucceedsIff(s: State, tx: Tx, now: nat)
    requires Inv(s) && tx.op.WithdrawFees?
    ensures var o := Exec(s, tx, now);
            && (o.Done? <==> tx.value == 0 && tx.sender == s.owner && s.accruedFees > 0 && tx.first.accepts)
            && (o.Done? ==> o.s.accruedFees == 0 && o.s.journal == s.journal + [FeesOut(tx.sender, s.accruedFees)]
                            && o.s.balance == s.balance - s.accruedFees)
  {
    SettlingCall(s, tx, now);
  }

  // ----- The lockup view -----

  /** `isLockupExpired`. */
  predicate LockupExpired(s: State, id: Id, now: nat) {
    EscrowAt(s, id).user != ZERO && EscrowAt(s, id).depositedAt + LOCKUP_PERIOD <= now
  }

  /** The view tells a depositor whether the lockup stands in the way: a refund fails for that reason exactly
      when the view is false and nothing before it in the function fails, and it never succeeds otherwise. */
  lemma LockupViewDecidesRefund(s: State, tx: Tx, now: nat)
    requires Inv(s) && tx.op.Refund?
    ensures var e := EscrowAt(s, tx.op.id); var o := Exec(s, tx, now);
            && (o.Reverted? && o.error == LockupNotExpired <==>
                  tx.value == 0 && e.user == tx.sender && e.status == Pending && !LockupExpired(s, tx.op.id, now))
            && (o.Done? ==> LockupExpired(s, tx.op.id, now))
  {
    SettlingCall(s, tx, now);
  }

  /** In every run after a deposit the view is true from 24 hours after that deposit on, and not before. */
  lemma LockupViewFromDeposit(s: State, d: Tx, start: nat, txs: seq<Timed>, now: nat)
    requires Inv(s) && d.op.Deposit? && Exec(s, d, start).Done?
    ensures LockupExpired(Run(Exec(s, d, start).s, txs), d.op.id, now) <==> now >= start + 86400
  {
    DepositLifecycle(s, d, start, txs);
  }

  // ----- Stopping -----

  lemma CloseGoesThroughIff(s: State, id: Id, tx: Tx, seen: seq<State>, now: nat)
    requires InvDuring(s, RefundStopped(id)) && s.locked
    ensures Conclude(Resume(s, RefundStopped(id)), tx, false, seen, now).Done?
       <==> (SessionAt(s, id).remainingBalance > 0 ==> tx.second.accepts)
  {
    ResumeIsFunded(s, RefundStopped(id));
  }

  lemma StopAfterPayment(s: State, tx: Tx, now: nat)
    requires Inv(s) && tx.op.StopSession? && tx.value == 0
    requires var x := SessionAt(s, tx.op.id); x.user == tx.sender && x.isActive && Accrued(x, now).Owed?
    ensures Exec(s, tx, now).Done?
       <==> tx.first.accepts && (LeftAt(SessionAt(s, tx.op.id), now) > 0 ==> tx.second.accepts)
  {
    var id := tx.op.id;
    var s0 := Admit(s, tx.value, tx.op);
    AdmitKeeps(s, tx.value, tx.op, now);
    BeginIsFunded(s0, tx.sender, tx.value, tx.op, now);
    BeginKeeps(s0, tx.sender, tx.value, tx.op, now);
    var p := ReleaseAccrued(s0, id, now, RefundStopped(id));
    assert p == Begin(s0, tx.sender, tx.value, tx.op, now);
    AccruedLeft(SessionAt(s0, id), now);
    HandoverKeeps(p.s, p.next, tx.first.calls, now);
    HandoverIsFrozen(p.s, tx.first.calls, now);
    var h := Handover(p.s, tx.first.calls, now);
    if tx.first.accepts {
      CloseGoesThroughIff(h.s, id, tx, h.seen, now);
    }
  }

  lemma StopWithoutPayment(s: State, tx: Tx, now: nat)
    requires Inv(s) && tx.op.StopSession? && tx.value == 0
    requires var x := SessionAt(s, tx.op.id); x.user == tx.sender && x.isActive && Accrued(x, now) == Nothing
    ensures Exec(s, tx, now).Done? <==> (SessionAt(s, tx.op.id).remainingBalance > 0 ==> tx.first.accepts)
  {
    var s0 := Admit(s, tx.value, tx.op);
    AdmitKeeps(s, tx.value, tx.op, now);
    BeginIsFunded(s0, tx.sender, tx.value, tx.op, now);
    assert Begin(s0, tx.sender, tx.value, tx.op, now) == Resume(s0, RefundStopped(tx.op.id));
  }

  /** A stop goes through exactly for the user of an active session whose checked product fits in a word, and
      whose provider takes what accrued and whose user takes what is left. */
  lemma StopSucceedsIff(s: State, tx: Tx, now: nat)
    requires Inv(s) && tx.op.StopSession?
    ensures var x := SessionAt(s, tx.op.id);
            Exec(s, tx, now).Done? <==>
              && tx.value == 0 && x.user == tx.sender && x.isActive
              && x.lastPaidAt <= now && (now - x.lastPaidAt) * x.ratePerSecond < WORD
              && (if Accrued(x, now).Owed?
                  then tx.first.accepts && (LeftAt(x, now) > 0 ==> tx.second.accepts)
                  else x.remainingBalance > 0 ==> tx.first.accepts)
  {
    var x := SessionAt(s, tx.op.id);
    if tx.value == 0 && x.user == tx.sender && x.isActive {
      assert Accrued(x, now) == Overflow <==> (now < x.lastPaidAt || (now - x.lastPaidAt) * x.ratePerSecond >= WORD);
      match Accrued(x, now)
      case Owed(_) => StopAfterPayment(s, tx, now);
      case Nothing => StopWithoutPayment(s, tx, now);
      case Overflow =>
    }
  }
}
