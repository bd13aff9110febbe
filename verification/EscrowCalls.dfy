/** What each call of the escrow objects to and what it leaves, and what foreign code can do in between. */
module EscrowCalls {
  import opened Chain
  import opened EscrowModel
  import opened EscrowSafety
  import opened EscrowRuns
  import opened StreamingSchedule

  // ----- Objections -----

  datatype Verdict = Fine | Objects(error: Error)

  /** The first thing that stands in the way of a call, in the order in which the source asks. */
  function Objection(s: State, tx: Tx, now: nat): Verdict {
    if tx.value > 0 && !tx.op.Deposit? && !tx.op.StartSession? then Objects(NotPayable)
    else
      match tx.op
      case Deposit(id, _) =>
        if s.locked then Objects(ReentrantCall)
        else if tx.value == 0 then Objects(ZeroAmount)
        else if EscrowAt(s, id).user != ZERO then Objects(SessionAlreadyExists)
        else Fine
      case Refund(id) =>
        if s.locked then Objects(ReentrantCall)
        else if EscrowAt(s, id).user == ZERO then Objects(SessionNotFound)
        else if EscrowAt(s, id).status != Pending then Objects(WrongStatus)
        else if tx.sender != EscrowAt(s, id).user then Objects(Unauthorised)
        else if now - EscrowAt(s, id).depositedAt < 86400 then Objects(LockupNotExpired)
        else Fine
      case Release(id) =>
        if s.locked then Objects(ReentrantCall)
        else if tx.sender !in {s.releaseAuthority, s.owner} then Objects(Unauthorised)
        else Unsettled(s, id, Pending)
      case Dispute(id) =>
        if tx.sender !in {s.releaseAuthority, s.owner} then Objects(Unauthorised) else Unsettled(s, id, Pending)
      case ResolveDispute(id, _) =>
        if s.locked then Objects(ReentrantCall)
        else if tx.sender != s.owner then Objects(NotOwner)
        else Unsettled(s, id, Disputed)
      case WithdrawFees =>
        if tx.sender != s.owner then Objects(NotOwner)
        else if s.locked then Objects(ReentrantCall)
        else if s.accruedFees == 0 then Objects(NoFeesToWithdraw)
        else Fine
      case StartSession(id, _, rate) =>
        if s.locked then Objects(ReentrantCall)
        else if tx.value == 0 then Objects(ZeroAmount)
        else if rate == 0 then Objects(ZeroRate)
        else if SessionAt(s, id).user != ZERO then Objects(SessionAlreadyExists)
        else Fine
      case ReleasePayment(id) => if s.locked then Objects(ReentrantCall) else Running(s, id, now)
      case SubmitProof(id) =>
        if s.locked then Objects(ReentrantCall)
        else if tx.sender !in {s.proofAuthority, s.owner} then Objects(Unauthorised)
        else Running(s, id, now)
      case StopSession(id) =>
        if s.locked then Objects(ReentrantCall)
        else if SessionAt(s, id).user !in {ZERO, tx.sender} && SessionAt(s, id).isActive then Objects(Unauthorised)
        else Running(s, id, now)
      case SlashProvider(id) =>
        if s.locked then Objects(ReentrantCall)
        else if tx.sender !in {s.proofAuthority, s.owner} then Objects(Unauthorised)
        else if SessionAt(s, id).user == ZERO then Objects(SessionNotFound)
        else if !SessionAt(s, id).isActive then Objects(SessionNotActive)
        else Fine
      case _ => if tx.sender != s.owner then Objects(NotOwner) else Fine
  }

  function Unsettled(s: State, id: Id, status: Status): Verdict {
    if EscrowAt(s, id).user == ZERO then Objects(SessionNotFound)
    else if EscrowAt(s, id).status != status then Objects(WrongStatus)
    else Fine
  }

  function Running(s: State, id: Id, now: nat): Verdict {
    var x := SessionAt(s, id);
    if x.user == ZERO then Objects(SessionNotFound)
    else if !x.isActive then Objects(SessionNotActive)
    else if now < x.lastPaidAt || (now - x.lastPaidAt) * x.ratePerSecond >= WORD then Objects(Panic)
    else Fine
  }

  /** The verdict is that of the first phase of the call. */
  ghost predicate Decides(v: Verdict, s: State, tx: Tx, now: nat) {
    match Enter(s, tx.sender, tx.value, tx.op)
    case Shut(error) => v == Objects(error)
    case Open =>
      match Begin(Admit(s, tx.value, tx.op), tx.sender, tx.value, tx.op, now)
      case Fail(error) => v == Objects(error) || (v == Fine && error == TransferFailed)
      case _ => v == Fine
  }

  lemma EscrowObjections(s: State, tx: Tx, now: nat)
    requires tx.op.Deposit? || tx.op.Refund? || tx.op.Release? || tx.op.Dispute? || tx.op.ResolveDispute?
          || tx.op.WithdrawFees?
    ensures Decides(Objection(s, tx, now), s, tx, now)
  {
  }

  lemma RunningDecides(s: State, id: Id, now: nat, next: Cont)
    requires SessionAt(s, id).user != ZERO && SessionAt(s, id).isActive
    ensures match ReleaseAccrued(s, id, now, next)
            case Fail(error) =>
              Running(s, id, now) == Objects(error) || (Running(s, id, now) == Fine && error == TransferFailed)
            case _ => Running(s, id, now) == Fine
  {
  }

  lemma SessionObjections(s: State, tx: Tx, now: nat)
    requires tx.op.StartSession? || tx.op.ReleasePayment? || tx.op.SubmitProof? || tx.op.StopSession?
          || tx.op.SlashProvider?
    ensures Decides(Objection(s, tx, now), s, tx, now)
  {
    var s0 := Admit(s, tx.value, tx.op);
    if SessionAt(s0, tx.op.id).user != ZERO && SessionAt(s0, tx.op.id).isActive {
      RunningDecides(s0, tx.op.id, now, if tx.op.StopSession? then RefundStopped(tx.op.id) else Return);
    }
  }

  lemma Decided(s: State, tx: Tx, now: nat)
    ensures Decides(Objection(s, tx, now), s, tx, now)
  {
    match tx.op
    case StartSession(_, _, _) => SessionObjections(s, tx, now);
    case ReleasePayment(_) => SessionObjections(s, tx, now);
    case SubmitProof(_) => SessionObjections(s, tx, now);
    case StopSession(_) => SessionObjections(s, tx, now);
    case SlashProvider(_) => SessionObjections(s, tx, now);
    case SetReleaseAuthority(_) =>
    case SetProofAuthority(_) =>
    case TransferOwnership(_) =>
    case _ => EscrowObjections(s, tx, now);
  }

  lemma ObjectionReverts(s: State, tx: Tx, now: nat)
    requires Objection(s, tx, now).Objects?
    ensures Exec(s, tx, now) == Reverted(Objection(s, tx, now).error, [])
  {
    Decided(s, tx, now);
  }

  lemma AcceptedConcludes(s: State, next: Cont, tx: Tx, seen: seq<State>, now: nat)
    requires InvDuring(s, next) && tx.second.accepts
    ensures Conclude(Resume(s, next), tx, false, seen, now).Done?
  {
    ResumeIsFunded(s, next);
  }

  lemma FineBegins(s: State, tx: Tx, now: nat)
    requires Inv(s) && Objection(s, tx, now) == Fine
    ensures Enter(s, tx.sender, tx.value, tx.op) == Open
    ensures !Begin(Admit(s, tx.value, tx.op), tx.sender, tx.value, tx.op, now).Fail?
  {
    Decided(s, tx, now);
    AdmitKeeps(s, tx.value, tx.op, now);
    BeginIsFunded(Admit(s, tx.value, tx.op), tx.sender, tx.value, tx.op, now);
  }

  lemma FineSucceeds(s: State, tx: Tx, now: nat)
    requires Inv(s) && Objection(s, tx, now) == Fine && tx.first.accepts && tx.second.accepts
    ensures Exec(s, tx, now).Done?
  {
    FineBegins(s, tx, now);
    var s0 := Admit(s, tx.value, tx.op);
    AdmitKeeps(s, tx.value, tx.op, now);
    BeginKeeps(s0, tx.sender, tx.value, tx.op, now);
    BeginKeepsLock(s0, tx.sender, tx.value, tx.op, now);
    var p := Begin(s0, tx.sender, tx.value, tx.op, now);
    if p.Call? {
      HandoverKeeps(p.s, p.next, tx.first.calls, now);
      var h := Handover(p.s, tx.first.calls, now);
      AcceptedConcludes(h.s, p.next, tx, h.seen, now);
    }
  }

  /** Between transactions and in callbacks: a call with an objection reverts with that error before anybody is
      paid; one without goes through if the parties accept, and fails for nothing but their refusal. */
  lemma ObjectionDecides(s: State, tx: Tx, now: nat)
    requires Inv(s) || (s.locked && Guarded(tx.op))
    ensures match Objection(s, tx, now)
            case Objects(error) => Exec(s, tx, now) == Reverted(error, [])
            case Fine =>
              && (tx.first.accepts && tx.second.accepts ==> Exec(s, tx, now).Done?)
              && (Exec(s, tx, now).Reverted? ==> Exec(s, tx, now).error == TransferFailed)
  {
    if Objection(s, tx, now).Objects? {
      ObjectionReverts(s, tx, now);
    } else {
      if tx.first.accepts && tx.second.accepts {
        FineSucceeds(s, tx, now);
      }
      RefusedForMoney(s, tx, now);
    }
  }

  lemma ResumeRefuses(s: State, next: Cont, tx: Tx, seen: seq<State>, now: nat)
    ensures var o := Conclude(Resume(s, next), tx, false, seen, now); o.Reverted? ==> o.error == TransferFailed
  {
  }

  lemma RefusedForMoney(s: State, tx: Tx, now: nat)
    requires Inv(s) && Objection(s, tx, now) == Fine
    ensures Exec(s, tx, now).Reverted? ==> Exec(s, tx, now).error == TransferFailed
  {
    FineBegins(s, tx, now);
    var p := Begin(Admit(s, tx.value, tx.op), tx.sender, tx.value, tx.op, now);
    if p.Call? {
      var h := Handover(p.s, tx.first.calls, now);
      ResumeRefuses(if tx.first.accepts then h.s else p.s, p.next, tx, h.seen, now);
    }
  }

  // ----- Effects -----

  /** A deposit goes through exactly with money under a free id, and records the sender's escrow and nothing else. */
  lemma DepositSucceedsIff(s: State, tx: Tx, now: nat)
    requires tx.op.Deposit?
    ensures var id := tx.op.id; var o := Exec(s, tx, now);
            && (o.Done? <==> !s.locked && tx.value > 0 && EscrowAt(s, id).user == ZERO)
            && (o.Done? ==>
                  o.s == s.(balance := s.balance + tx.value, journal := s.journal + [EscrowIn(id, tx.value)],
                            escrows := s.escrows[id := Escrow(tx.sender, tx.op.provider, tx.value, now, Pending)]))
  {
  }

  /** In every state, guard taken or not, a dispute goes through exactly for the release authority or the owner
      on a pending escrow, and does nothing but mark it. */
  lemma DisputeSucceedsIff(s: State, tx: Tx, now: nat)
    requires tx.op.Dispute?
    ensures var id := tx.op.id; var e := EscrowAt(s, id); var o := Exec(s, tx, now);
            && (o.Done? <==> tx.value == 0 && (tx.sender == s.releaseAuthority || tx.sender == s.owner)
                             && e.user != ZERO && e.status == Pending)
            && (o.Done? ==> o.s == s.(escrows := s.escrows[id := e.(status := Disputed)]))
  {
  }

  /** In every state, only the owner moves an authority or the ownership, each by its own setter. */
  lemma SettersSucceedIff(s: State, tx: Tx, now: nat)
    requires tx.op.SetReleaseAuthority? || tx.op.SetProofAuthority? || tx.op.TransferOwnership?
    ensures var o := Exec(s, tx, now);
            && (o.Done? <==> tx.value == 0 && tx.sender == s.owner)
            && (o.Done? ==>
                  o.s == match tx.op
                         case SetReleaseAuthority(a) => s.(releaseAuthority := a)
                         case SetProofAuthority(a) => s.(proofAuthority := a)
                         case TransferOwnership(a) => s.(owner := a)
                         case _ => s)
  {
  }

  /** A proof goes through exactly where a release would, for the proof authority or the owner. */
  lemma ProofSucceedsIff(s: State, tx: Tx, now: nat)
    requires Inv(s) && tx.op.SubmitProof?
    ensures var x := SessionAt(s, tx.op.id);
            Exec(s, tx, now).Done? <==>
              && tx.value == 0 && (tx.sender == s.proofAuthority || tx.sender == s.owner)
              && x.user != ZERO && x.isActive && x.lastPaidAt <= now
              && (now - x.lastPaidAt) * x.ratePerSecond < WORD
              && (Accrued(x, now).Owed? ==> tx.first.accepts)
  {
    var s0 := Admit(s, tx.value, tx.op);
    AdmitKeeps(s, tx.value, tx.op, now);
    BeginIsFunded(s0, tx.sender, tx.value, tx.op, now);
  }

  /** What a release or a proof pays: nothing and no change if nothing was due, otherwise what was due in one
      entry, nine tenths to the provider and a tenth kept. */
  lemma ReleasePaysWhatIsDue(s: State, tx: Tx, now: nat)
    requires Inv(s) && (tx.op.ReleasePayment? || tx.op.SubmitProof?) && Exec(s, tx, now).Done?
    ensures var id := tx.op.id; var x := SessionAt(s, id); var s' := Exec(s, tx, now).s;
            var due := x.remainingBalance - LeftAt(x, now);
            if due == 0 then s' == s
            else
              && s'.journal == s.journal + [StreamOut(id, x.provider, due - due / 10, due / 10)]
              && s'.accruedFees == s.accruedFees + due / 10
              && s'.balance == s.balance - (due - due / 10)
              && SessionAt(s', id) == x.(remainingBalance := x.remainingBalance - due, lastPaidAt := now)
  {
    ReleaseBegins(s, tx, now);
    var s0 := Admit(s, tx.value, tx.op);
    var id := tx.op.id;
    AccruedLeft(SessionAt(s, id), now);
    match Accrued(SessionAt(s, id), now)
    case Overflow =>
    case Nothing => assert Exec(s, tx, now).s == s0.(locked := false);
    case Owed(owed) =>
      AccruedIsPaid(s0, id, owed, now, Return);
      HandoverIsFrozen(ReleaseAccrued(s0, id, now, Return).s, tx.first.calls, now);
  }

  /** `pendingPayment` of any session, closed or running, is what it holds less what its rate leaves of it. */
  lemma PendingIsDrip(s: State, id: Id, now: nat)
    requires Inv(s)
    ensures var x := SessionAt(s, id);
            match PendingPayment(x, now)
            case Overflow => Running(s, id, now) == Objects(Panic)
            case Owed(amount) => if x.isActive then amount == x.remainingBalance - LeftAt(x, now) else amount == 0
            case Nothing => false
  {
    if SessionAt(s, id).isActive {
      PendingMatches(SessionAt(s, id), now);
      ActiveHasUser(s, id);
    }
  }

  lemma ActiveHasUser(s: State, id: Id)
    requires Inv(s)
    ensures SessionAt(s, id).isActive ==> SessionAt(s, id).user != ZERO
  {
  }

  // ----- Foreign code -----

  function Stamped(calls: seq<Tx>, now: nat): (txs: seq<Timed>)
    ensures |txs| == |calls|
  {
    if calls == [] then [] else [Timed(now, calls[0])] + Stamped(calls[1..], now)
  }

  /** What foreign code does with its calls back is what anyone does with a run of transactions. */
  lemma {:induction false} HandoverIsRun(s: State, calls: seq<Tx>, now: nat)
    ensures Handover(s, calls, now).s == Run(s, Stamped(calls, now))
    ensures var seen := Handover(s, calls, now).seen;
            seen != [] && seen[0] == s && seen[|seen| - 1] == Handover(s, calls, now).s
    decreases |calls|
  {
    if calls != [] {
      HandoverIsRun(After(s, Exec(s, calls[0], now)), calls[1..], now);
    }
  }

  /** It sees the state after each of them. */
  lemma {:induction false} HandoverSeesEach(s: State, calls: seq<Tx>, now: nat, k: nat)
    requires k <= |calls|
    ensures Run(s, Stamped(calls[..k], now)) in Handover(s, calls, now).seen
    decreases k
  {
    HandoverIsRun(s, calls, now);
    if k > 0 {
      assert calls[..k][1..] == calls[1..][..k - 1];
      HandoverSeesEach(After(s, Exec(s, calls[0], now)), calls[1..], now, k - 1);
    }
  }

  /** The calls with one external call. */
  predicate PaysOnce(op: Op) {
    op.Refund? || op.Release? || op.ResolveDispute? || op.WithdrawFees? || op.StartSession?
    || op.ReleasePayment? || op.SubmitProof?
  }

  /** A call with one external call stops there with the guard taken, foreign code makes all its calls back
      from that state on, and the call ends where they end. */
  lemma ForeignCodeRuns(s: State, tx: Tx, now: nat)
    requires PaysOnce(tx.op) && Exec(s, tx, now).Done? && Exec(s, tx, now).seen != []
    ensures var o := Exec(s, tx, now);
            && o.seen[0].locked && !s.locked
            && o.seen == Handover(o.seen[0], tx.first.calls, now).seen
            && o.s == Run(o.seen[0], Stamped(tx.first.calls, now)).(locked := false)
  {
    var s0 := Admit(s, tx.value, tx.op);
    BeginKeepsLock(s0, tx.sender, tx.value, tx.op, now);
    ReturnsAtOnce(s0, tx, now);
    var p := Begin(s0, tx.sender, tx.value, tx.op, now);
    HandoverIsRun(p.s, tx.first.calls, now);
  }

  lemma ReturnsAtOnce(s: State, tx: Tx, now: nat)
    requires PaysOnce(tx.op)
    ensures var p := Begin(s, tx.sender, tx.value, tx.op, now); p.Call? ==> p.mustAccept && p.next == Return
  {
  }

  /** A stop or a slash may call out twice: each time the called party makes all its calls back from the state it
      is handed, and the call ends where the last of them end. */
  lemma ForeignCodeRunsTwice(s: State, tx: Tx, now: nat)
    requires (tx.op.StopSession? || tx.op.SlashProvider?) && Exec(s, tx, now).Done? && Exec(s, tx, now).seen != []
    ensures var o := Exec(s, tx, now); var first := Handover(o.seen[0], tx.first.calls, now).seen;
            && o.seen[0].locked && first <= o.seen
            && (|o.seen| > |first| ==>
                  && o.seen[|first|..] == Handover(o.seen[|first|], tx.second.calls, now).seen
                  && o.s == Run(o.seen[|first|], Stamped(tx.second.calls, now)).(locked := false))
  {
    var s0 := Admit(s, tx.value, tx.op);
    BeginKeepsLock(s0, tx.sender, tx.value, tx.op, now);
    var p := Begin(s0, tx.sender, tx.value, tx.op, now);
    var h := Handover(p.s, tx.first.calls, now);
    HandoverIsRun(p.s, tx.first.calls, now);
    var q := Resume(if tx.first.accepts then h.s else p.s, p.next);
    if q.Call? {
      HandoverIsRun(q.s, tx.second.calls, now);
      assert Exec(s, tx, now).seen == h.seen + Handover(q.s, tx.second.calls, now).seen;
    }
  }

  /** A call back that takes effect: the authority, paid a refund of escrow 1, disputes escrow 2 from inside. */
  lemma DisputeFromInside(owner: Account, alice: Account)
    ensures var idle := Callee(true, []);
            var inside := Callee(true, [Tx(alice, 0, Dispute(2), idle, idle), Tx(alice, 0, Refund(2), idle, idle)]);
            var s0 := Init(owner, alice);
            var s1 := After(s0, Exec(s0, Tx(alice, 5, Deposit(1, owner), idle, idle), 10));
            var s2 := After(s1, Exec(s1, Tx(alice, 7, Deposit(2, owner), idle, idle), 11));
            var o := Exec(s2, Tx(alice, 0, Refund(1), inside, idle), 86411);
            && o.Done? && EscrowAt(o.s, 1).status == Refunded && EscrowAt(o.s, 2).status == Disputed
            && o.s.balance == 7 && |o.seen| == 3 && o.seen[0].balance == 7 && EscrowAt(o.seen[0], 2).status == Pending
  {
    var idle := Callee(true, []);
    var calls := [Tx(alice, 0, Dispute(2), idle, idle), Tx(alice, 0, Refund(2), idle, idle)];
    var inside := Callee(true, calls);
    var s0 := Init(owner, alice);
    var s1 := After(s0, Exec(s0, Tx(alice, 5, Deposit(1, owner), idle, idle), 10));
    var s2 := After(s1, Exec(s1, Tx(alice, 7, Deposit(2, owner), idle, idle), 11));
    var tx := Tx(alice, 0, Refund(1), inside, idle);
    var p := Begin(Admit(s2, 0, tx.op), alice, 0, tx.op, 86411);
    assert p.Call? && p.s.balance == 7;
    var t1 := After(p.s, Exec(p.s, calls[0], 86411));
    assert t1 == p.s.(escrows := p.s.escrows[2 := EscrowAt(p.s, 2).(status := Disputed)]);
    assert Exec(t1, calls[1], 86411) == Reverted(ReentrantCall, []);
    assert calls[1..] == [calls[1]] && calls[1..][1..] == [];
    assert Handover(t1, calls[1..], 86411) == Handed(t1, [t1, t1]);
    assert Handover(p.s, calls, 86411) == Handed(t1, [p.s, t1, t1]);
  }
}
