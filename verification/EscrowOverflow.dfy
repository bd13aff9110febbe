/** Sessions whose elapsed * rate no longer fits in a word: how one gets there, and that there is no way back. */
module EscrowOverflow {
  import opened Chain
  import opened EscrowModel
  import opened EscrowSafety
  import opened SessionBooks
  import opened Streaming
  import opened EscrowRuns
  import opened StreamingSchedule

  // ----- A call about one session leaves the others alone -----

  predicate Names(op: Op, id: Id) {
    (op.StartSession? || op.ReleasePayment? || op.SubmitProof? || op.StopSession? || op.SlashProvider?) && op.id == id
  }

  predicate Resumes(next: Cont, id: Id) {
    next.RefundStopped? && next.id == id
  }

  lemma ResumeElsewhere(s: State, next: Cont, id: Id)
    requires !Resumes(next, id)
    ensures var p := Resume(s, next); p.Fail? || SessionAt(p.s, id) == SessionAt(s, id)
    ensures Resume(s, next).Call? ==> Resume(s, next).next == Return
  {
  }

  lemma BeginElsewhere(s: State, sender: Account, value: nat, op: Op, now: nat, id: Id)
    requires !Names(op, id)
    ensures var p := Begin(s, sender, value, op, now);
            && (p.Fail? || SessionAt(p.s, id) == SessionAt(s, id))
            && (p.Call? ==> !Resumes(p.next, id))
  {
    if op.ReleasePayment? || op.SubmitProof? {
      ResumeElsewhere(s, Return, id);
    } else if op.StopSession? {
      ResumeElsewhere(s, RefundStopped(op.id), id);
    }
  }

  lemma ConcludeElsewhere(p: Phase, tx: Tx, seen: seq<State>, now: nat, id: Id)
    requires p.Call? ==> p.s.locked
    ensures var o := Conclude(p, tx, false, seen, now); o.Done? ==> SessionAt(o.s, id) == SessionAt(p.s, id)
  {
    if p.Call? {
      HandoverIsFrozen(p.s, tx.second.calls, now);
    }
  }

  lemma ExecElsewhere(s: State, tx: Tx, now: nat, id: Id)
    requires Inv(s) && !Names(tx.op, id)
    ensures SessionAt(After(s, Exec(s, tx, now)), id) == SessionAt(s, id)
  {
    if Enter(s, tx.sender, tx.value, tx.op) == Open {
      var s0 := Admit(s, tx.value, tx.op);
      BeginElsewhere(s0, tx.sender, tx.value, tx.op, now, id);
      BeginKeepsLock(s0, tx.sender, tx.value, tx.op, now);
      match Begin(s0, tx.sender, tx.value, tx.op, now)
      case Fail(_) =>
      case Finish(_) =>
      case Call(s1, mustAccept, next) =>
        HandoverIsFrozen(s1, tx.first.calls, now);
        var h := Handover(s1, tx.first.calls, now);
        var r := if tx.first.accepts then h.s else s1;
        ResumeElsewhere(r, next, id);
        ResumeKeepsLock(r, next);
        ConcludeElsewhere(Resume(r, next), tx, h.seen, now, id);
    }
  }

  // ----- Stuck sessions -----

  predicate Overflowed(x: Session, now: nat) {
    x.lastPaidAt <= now && (now - x.lastPaidAt) * x.ratePerSecond >= WORD
  }

  predicate Exits(op: Op, id: Id) {
    (op.ReleasePayment? || op.SubmitProof? || op.StopSession?) && op.id == id
  }

  /** The session is closed, or its product has overflowed by `now`. */
  predicate Stuck(x: Session, now: nat) {
    x.user != ZERO && (x.isActive ==> Overflowed(x, now))
  }

  lemma StuckLater(x: Session, now: nat, later: nat)
    requires Stuck(x, now) && now <= later
    ensures Stuck(x, later)
  {
    if x.isActive {
      Distribute(x.ratePerSecond, now - x.lastPaidAt, later - now);
    }
  }

  lemma StuckReverts(s: State, tx: Tx, now: nat, id: Id)
    requires Inv(s) && Stuck(SessionAt(s, id), now) && Exits(tx.op, id)
    ensures Exec(s, tx, now).Reverted?
  {
    if SessionAt(s, id).isActive {
      OverflowBlocksExit(s, tx, now, now);
    }
  }

  function Closed(x: Session): Session {
    x.(remainingBalance := 0, isActive := false)
  }

  lemma StartTaken(s: State, tx: Tx, now: nat)
    requires Inv(s) && tx.op.StartSession? && SessionAt(s, tx.op.id).user != ZERO
    ensures Exec(s, tx, now).Reverted?
  {
  }

  /** Of all calls only a slash changes a stuck session. */
  lemma StuckStep(s: State, tx: Tx, now: nat, id: Id)
    requires Inv(s) && Stuck(SessionAt(s, id), now)
    ensures var x, x' := SessionAt(s, id), SessionAt(After(s, Exec(s, tx, now)), id);
            x' == x || (x' == Closed(x) && tx.op == SlashProvider(id))
  {
    if !Names(tx.op, id) {
      ExecElsewhere(s, tx, now, id);
    } else if tx.op.SlashProvider? {
      SlashRefundsFully(s, tx, now);
    } else if tx.op.StartSession? {
      StartTaken(s, tx, now);
    } else {
      StuckReverts(s, tx, now, id);
    }
  }

  /** All transactions are in blocks stamped at or after `now`. */
  ghost predicate From(txs: seq<Timed>, now: nat) {
    forall i :: 0 <= i < |txs| ==> now <= txs[i].now
  }

  ghost predicate Slashed(txs: seq<Timed>, id: Id) {
    exists i :: 0 <= i < |txs| && txs[i].tx.op == SlashProvider(id)
  }

  lemma {:induction false} StuckRun(s: State, txs: seq<Timed>, now: nat, id: Id)
    requires Inv(s) && From(txs, now) && Stuck(SessionAt(s, id), now)
    ensures var x, x' := SessionAt(s, id), SessionAt(Run(s, txs), id);
            Inv(Run(s, txs)) && (x' == x || (x' == Closed(x) && Slashed(txs, id)))
    decreases |txs|
  {
    if txs != [] {
      var s1 := After(s, Exec(s, txs[0].tx, txs[0].now));
      StuckLater(SessionAt(s, id), now, txs[0].now);
      StuckStep(s, txs[0].tx, txs[0].now, id);
      ExecKeeps(s, txs[0].tx, txs[0].now);
      StuckRun(s1, txs[1..], now, id);
      if Slashed(txs[1..], id) {
        var i :| 0 <= i < |txs[1..]| && txs[1..][i].tx.op == SlashProvider(id);
        assert txs[i + 1].tx.op == SlashProvider(id);
      }
    }
  }

  /** Once the product of an active session has overflowed, no run leads back: at every later point releases,
      proofs and stops of it revert, and unless it is slashed it stands there with all it held. */
  lemma OverflowIsForever(s: State, txs: seq<Timed>, now: nat, id: Id, tx: Tx, later: nat)
    requires Inv(s) && SessionAt(s, id).isActive && SessionAt(s, id).user != ZERO && Overflowed(SessionAt(s, id), now)
    requires From(txs, now) && now <= later && Exits(tx.op, id)
    ensures Exec(Run(s, txs), tx, later).Reverted?
    ensures Slashed(txs, id) || SessionAt(Run(s, txs), id) == SessionAt(s, id)
  {
    StuckRun(s, txs, now, id);
    StuckLater(SessionAt(Run(s, txs), id), now, later);
    StuckReverts(Run(s, txs), tx, later, id);
  }

  /** A session that gets there: started at time 10 with the largest rate a caller can name, two seconds on. */
  lemma OverflowReached(owner: Account, authority: Address, user: Account, provider: Account,
                        txs: seq<Timed>, later: nat)
    requires From(txs, 12) && 12 <= later
    ensures var idle := Callee(true, []);
            var start := Exec(Init(owner, authority), Tx(user, 5, StartSession(1, provider, WORD - 1), idle, idle), 10);
            && start.Done? && SessionAt(start.s, 1) == Session(user, provider, WORD - 1, 4, 10, true)
            && Exec(Run(start.s, txs), Tx(user, 0, StopSession(1), idle, idle), later).Reverted?
  {
    var idle := Callee(true, []);
    var tx := Tx(user, 5, StartSession(1, provider, WORD - 1), idle, idle);
    InitInv(owner, authority);
    ExecKeeps(Init(owner, authority), tx, 10);
    StartedSession(Init(owner, authority), tx, 10);
    OverflowIsForever(Exec(Init(owner, authority), tx, 10).s, txs, 12, 1,
                      Tx(user, 0, StopSession(1), idle, idle), later);
  }
}
