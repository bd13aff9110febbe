/** The escrow's main results, for every run of transactions with arbitrary callbacks. */
module EscrowRuns {
  import opened Chain
  import opened EscrowModel
  import opened EscrowSafety
  import opened EscrowTills
  import opened SessionBooks
  import opened Streaming

  ghost predicate InvDuring(s: State, next: Cont) {
    Solvent(s, next) && AllLawful(s) && AllInBooks(s, next) && PotKept(s) && Ready(s, next)
  }

  /** Between transactions nothing is in flight and the guard is free. */
  ghost predicate Inv(s: State) {
    InvDuring(s, Return) && !s.locked
  }

  ghost predicate Covered(s: State) {
    s.balance >= Liabilities(s)
  }

  lemma InitInv(owner: Account, authority: Address)
    ensures Inv(Init(owner, authority))
  {
    var s := Init(owner, authority);
    assert AllInBooks(s, Return) by {
      forall id ensures InBooks(s, Return, id) {
        assert SessionAt(s, id) == NO_SESSION && BooksOf(s.journal, id) == NO_BOOKS;
      }
    }
    assert AllLawful(s) by {
      forall id ensures Lawful(s, id) {
        assert EscrowAt(s, id) == NO_ESCROW;
      }
    }
  }

  // ----- One transaction -----

  /** The guard flag and the ETH that came with the call do not enter the accounts. */
  lemma AdmitKeeps(s: State, value: nat, op: Op, now: nat)
    requires Inv(s)
    ensures var s0 := Admit(s, value, op);
            Keyed(s0) && s0.balance == Liabilities(s0) + value && AllLawful(s0) && AllInBooks(s0, Return) && PotKept(s0)
    ensures AllDrip(s, Admit(s, value, op), now) && AllSettling(s, Admit(s, value, op))
  {
    var s0 := Admit(s, value, op);
    SameDrips(s, s0, now);
    assert forall i :: Untouched(s, Return, s0, Return, i);
    SameBooks(s, Return, s0, Return);
    assert AllLawful(s0) by {
      forall id ensures Lawful(s0, id) { assert Lawful(s, id); }
    }
  }

  lemma LeaveKeeps(s: State, now: nat)
    requires InvDuring(s, Return)
    ensures Inv(s.(locked := false))
    ensures AllDrip(s, s.(locked := false), now) && AllSettling(s, s.(locked := false))
  {
    var s0 := s.(locked := false);
    SameDrips(s, s0, now);
    assert forall i :: Untouched(s, Return, s0, Return, i);
    SameBooks(s, Return, s0, Return);
    assert AllLawful(s0) by {
      forall id ensures Lawful(s0, id) { assert Lawful(s, id); }
    }
  }

  lemma BeginKeeps(s: State, sender: Account, value: nat, op: Op, now: nat)
    requires Keyed(s) && s.balance == Liabilities(s) + value && AllLawful(s) && AllInBooks(s, Return) && PotKept(s)
    requires value > 0 ==> Payable(op)
    ensures match Begin(s, sender, value, op, now)
            case Fail(_) => true
            case Finish(s1) => InvDuring(s1, Return) && AllDrip(s, s1, now) && AllSettling(s, s1)
            case Call(s1, _, next) => InvDuring(s1, next) && AllDrip(s, s1, now) && AllSettling(s, s1)
  {
    BeginKeepsSolvent(s, sender, value, op, now);
    BeginKeepsLawful(s, sender, value, op, now);
    BeginKeepsBooks(s, sender, value, op, now);
    BeginKeepsPot(s, sender, value, op, now);
    BeginDrips(s, sender, value, op, now);
    BeginSettles(s, sender, value, op, now);
  }

  lemma ResumeKeeps(s: State, next: Cont, now: nat)
    requires InvDuring(s, next)
    ensures match Resume(s, next)
            case Fail(_) => true
            case Finish(s1) => InvDuring(s1, Return) && AllDrip(s, s1, now) && AllSettling(s, s1)
            case Call(s1, mustAccept, next1) =>
              mustAccept && next1 == Return && InvDuring(s1, Return) && AllDrip(s, s1, now) && AllSettling(s, s1)
  {
    ResumeKeepsSolvent(s, next);
    ResumeKeepsLawful(s, next);
    ResumeKeepsBooks(s, next);
    ResumeKeepsPot(s, next);
    ResumeDrips(s, next, now);
    ResumeSettles(s, next);
  }

  /** Foreign code keeps the accounts in order and sees a covered contract throughout. */
  lemma HandoverKeeps(s: State, next: Cont, calls: seq<Tx>, now: nat)
    requires InvDuring(s, next) && s.locked
    ensures var h := Handover(s, calls, now);
            && InvDuring(h.s, next) && h.s.locked && AllDrip(s, h.s, now) && AllSettling(s, h.s)
            && forall i :: 0 <= i < |h.seen| ==> Covered(h.seen[i])
  {
    HandoverIsFrozen(s, calls, now);
    var h := Handover(s, calls, now);
    FrozenKeepsSolvent(s, h.s, next);
    FrozenKeepsLawful(s, h.s);
    FrozenKeepsBooks(s, h.s, next);
    FrozenDrips(s, h.s, now);
    FrozenSettles(s, h.s);
    forall i | 0 <= i < |h.seen| ensures Covered(h.seen[i]) {
      FrozenKeepsSolvent(s, h.seen[i], next);
    }
  }

  lemma Chain2(s: State, s1: State, s2: State, now: nat)
    requires AllDrip(s, s1, now) && AllDrip(s1, s2, now) && AllSettling(s, s1) && AllSettling(s1, s2)
    ensures AllDrip(s, s2, now) && AllSettling(s, s2)
  {
    AllDripTransitive(s, s1, s2, now);
    AllSettlingTransitive(s, s1, s2);
  }

  lemma BeginKeepsLock(s: State, sender: Account, value: nat, op: Op, now: nat)
    requires s.locked <==> Guarded(op)
    ensures var p := Begin(s, sender, value, op, now);
            (p.Fail? || p.s.locked == s.locked) && (p.Call? ==> Guarded(op))
  {
  }

  lemma ResumeKeepsLock(s: State, next: Cont)
    ensures var p := Resume(s, next); p.Fail? || p.s.locked == s.locked
  {
  }

  ghost predicate AllCovered(seen: seq<State>) {
    forall i :: 0 <= i < |seen| ==> Covered(seen[i])
  }

  /** `o` keeps what `s` promises. */
  ghost predicate Keeps(s: State, o: Outcome, now: nat) {
    && (o.Done? ==> Inv(o.s) && AllDrip(s, o.s, now) && AllSettling(s, o.s))
    && AllCovered(o.seen)
  }

  /** Which states may follow `s` within a transaction. */
  ghost predicate Follows(s: State, s': State, now: nat) {
    AllDrip(s, s', now) && AllSettling(s, s')
  }

  lemma ConcludeKeeps(s: State, p: Phase, tx: Tx, seen: seq<State>, now: nat)
    requires AllCovered(seen)
    requires match p
             case Fail(_) => true
             case Finish(s1) => InvDuring(s1, Return) && Follows(s, s1, now)
             case Call(s1, mustAccept, next) =>
               s1.locked && next == Return && InvDuring(s1, Return) && Follows(s, s1, now)
    ensures Keeps(s, Conclude(p, tx, false, seen, now), now)
  {
    match p
    case Fail(_) =>
    case Finish(s1) =>
      LeaveKeeps(s1, now);
      Chain2(s, s1, s1.(locked := false), now);
    case Call(s1, _, _) =>
      HandoverKeeps(s1, Return, tx.second.calls, now);
      var h := Handover(s1, tx.second.calls, now);
      Chain2(s, s1, h.s, now);
      LeaveKeeps(h.s, now);
      Chain2(s, h.s, h.s.(locked := false), now);
  }

  lemma ExecAfterCall(s: State, tx: Tx, now: nat, s1: State, mustAccept: bool, next: Cont)
    requires InvDuring(s1, next) && s1.locked && Follows(s, s1, now)
    ensures var h := Handover(s1, tx.first.calls, now);
            && AllCovered(h.seen)
            && var r := if tx.first.accepts then h.s else s1;
               Keeps(s, Conclude(Resume(r, next), tx, false, h.seen, now), now)
  {
    HandoverKeeps(s1, next, tx.first.calls, now);
    var h := Handover(s1, tx.first.calls, now);
    var r := if tx.first.accepts then h.s else s1;
    if tx.first.accepts {
      Chain2(s, s1, h.s, now);
    }
    ResumeKeeps(r, next, now);
    ResumeKeepsLock(r, next);
    var p := Resume(r, next);
    if !p.Fail? {
      Chain2(s, r, p.s, now);
    }
    ConcludeKeeps(s, p, tx, h.seen, now);
  }

  /** A transaction keeps the invariant, moves sessions and escrows only as they may move, and every
      state it shows to foreign code covers its liabilities. */
  lemma ExecKeeps(s: State, tx: Tx, now: nat)
    requires Inv(s)
    ensures Keeps(s, Exec(s, tx, now), now)
  {
    if Enter(s, tx.sender, tx.value, tx.op) == Open {
      var s0 := Admit(s, tx.value, tx.op);
      AdmitKeeps(s, tx.value, tx.op, now);
      BeginKeeps(s0, tx.sender, tx.value, tx.op, now);
      BeginKeepsLock(s0, tx.sender, tx.value, tx.op, now);
      match Begin(s0, tx.sender, tx.value, tx.op, now)
      case Fail(_) =>
      case Finish(s1) =>
        LeaveKeeps(s1, now);
        Chain2(s, s0, s1, now);
        Chain2(s, s1, s1.(locked := false), now);
      case Call(s1, mustAccept, next) =>
        Chain2(s, s0, s1, now);
        ExecAfterCall(s, tx, now, s1, mustAccept, next);
    }
  }

  // ----- Every run -----

  /** All transactions are in blocks stamped at most `t`. */
  ghost predicate By(txs: seq<Timed>, t: nat) {
    forall i :: 0 <= i < |txs| ==> txs[i].now <= t
  }

  lemma DrippedLater(x: Session, b: Books, x': Session, b': Books, now: nat, t: nat)
    requires Dripped(x, b, x', b', now) && now <= t
    ensures Dripped(x, b, x', b', t)
  {
  }

  lemma AllDripLater(s: State, s': State, now: nat, t: nat)
    requires AllDrip(s, s', now) && now <= t
    ensures AllDrip(s, s', t)
  {
    forall id ensures Drips(s, s', t, id) {
      assert Drips(s, s', now, id);
      if SessionAt(s, id).user != ZERO {
        DrippedLater(SessionAt(s, id), BooksOf(s.journal, id), SessionAt(s', id), BooksOf(s'.journal, id), now, t);
      }
    }
  }

  lemma {:induction false} RunKeeps(s: State, txs: seq<Timed>, t: nat)
    requires Inv(s) && By(txs, t)
    ensures Inv(Run(s, txs)) && AllDrip(s, Run(s, txs), t) && AllSettling(s, Run(s, txs))
    ensures forall i :: 0 <= i < |Observed(s, txs)| ==> Covered(Observed(s, txs)[i])
    decreases |txs|
  {
    if txs == [] {
      SameDrips(s, s, t);
    } else {
      var o := Exec(s, txs[0].tx, txs[0].now);
      ExecKeeps(s, txs[0].tx, txs[0].now);
      SameDrips(s, s, txs[0].now);
      AllDripLater(s, After(s, o), txs[0].now, t);
      RunKeeps(After(s, o), txs[1..], t);
      Chain2(s, After(s, o), Run(s, txs), t);
    }
  }

  function Latest(txs: seq<Timed>): nat
    decreases |txs|
  {
    if txs == [] then 0 else Max(txs[0].now, Latest(txs[1..]))
  }

  lemma {:induction false} ByLatest(txs: seq<Timed>)
    ensures By(txs, Latest(txs))
    decreases |txs|
  {
    if txs != [] {
      ByLatest(txs[1..]);
      assert forall i :: 0 < i < |txs| ==> txs[i] == txs[1..][i - 1];
    }
  }

  lemma RunKeepsInv(s: State, txs: seq<Timed>)
    requires Inv(s)
    ensures Inv(Run(s, txs)) && AllDrip(s, Run(s, txs), Latest(txs)) && AllSettling(s, Run(s, txs))
    ensures forall i :: 0 <= i < |Observed(s, txs)| ==> Covered(Observed(s, txs)[i])
  {
    ByLatest(txs);
    RunKeeps(s, txs, Latest(txs));
  }

  /** Solvency. After every run from deployment the balance is exactly what is owed, and every state
      that foreign code gets to see during the run, mid-payment included, covers what is owed. */
  lemma SolventInEveryRun(owner: Account, authority: Address, txs: seq<Timed>)
    ensures var s := Run(Init(owner, authority), txs);
            s.balance == Total(s.escrows, Held) + Total(s.sessions, Remaining) + s.accruedFees
    ensures forall i :: 0 <= i < |Observed(Init(owner, authority), txs)| ==>
              var s := Observed(Init(owner, authority), txs)[i];
              s.balance >= Total(s.escrows, Held) + Total(s.sessions, Remaining) + s.accruedFees
  {
    InitInv(owner, authority);
    RunKeepsInv(Init(owner, authority), txs);
    forall i | 0 <= i < |Observed(Init(owner, authority), txs)|
      ensures var s := Observed(Init(owner, authority), txs)[i];
              s.balance >= Total(s.escrows, Held) + Total(s.sessions, Remaining) + s.accruedFees
    {
      assert Covered(Observed(Init(owner, authority), txs)[i]);
    }
  }

  /** One-shot escrows pay at most once: the account of each escrow is the one its status allows, and
      once it is settled no later transaction changes the escrow or pays for it again. */
  lemma EscrowPaysOnce(s: State, txs: seq<Timed>, id: Id)
    requires Inv(s)
    ensures EscrowTill(Run(s, txs).journal, id) == LawfulTill(EscrowAt(Run(s, txs), id))
    ensures EscrowTill(Run(s, txs).journal, id).payments <= 1
    ensures var e := EscrowAt(s, id);
            e.user != ZERO && (e.status == Released || e.status == Refunded) ==>
              EscrowAt(Run(s, txs), id) == e
              && EscrowTill(Run(s, txs).journal, id) == EscrowTill(s.journal, id)
  {
    RunKeepsInv(s, txs);
    assert Lawful(s, id) && Lawful(Run(s, txs), id);
    assert EscrowAt(s, id).user != ZERO ==> Settling(EscrowAt(s, id), EscrowAt(Run(s, txs), id));
  }

  /** Every fee ever charged, on escrows and on releases, is still in the pot or was withdrawn. */
  lemma FeesConserved(s: State, txs: seq<Timed>)
    requires Inv(s)
    ensures var p := FeePot(Run(s, txs).journal);
            p.charged == Run(s, txs).accruedFees + p.withdrawn
  {
    RunKeepsInv(s, txs);
  }

  /** Conservation for one session: deposit = up-front part + net payments + fees + refund + remainder. */
  lemma SessionConserved(s: State, txs: seq<Timed>, id: Id)
    requires Inv(s)
    ensures var b := BooksOf(Run(s, txs).journal, id); var x := SessionAt(Run(s, txs), id);
            && b.deposit == b.upfront + b.net + b.fees + b.refund + x.remainingBalance
            && b.upfront == b.deposit / 5
            && (!x.isActive ==> x.remainingBalance == 0)
  {
    RunKeepsInv(s, txs);
    assert InBooks(Run(s, txs), Return, id);
  }

  /** Once a session is closed, no later transaction touches it or pays anything for it. */
  lemma ClosedSessionIsFinal(s: State, txs: seq<Timed>, id: Id)
    requires Inv(s) && SessionAt(s, id).user != ZERO && !SessionAt(s, id).isActive
    ensures SessionAt(Run(s, txs), id) == SessionAt(s, id)
    ensures var b, b' := BooksOf(s.journal, id), BooksOf(Run(s, txs).journal, id);
            b'.deposit == b.deposit && b'.upfront == b.upfront && b'.Gross() == b.Gross() && b'.refund == b.refund
  {
    RunKeepsInv(s, txs);
    assert Drips(s, Run(s, txs), Latest(txs), id);
    assert InBooks(s, Return, id) && InBooks(Run(s, txs), Return, id);
  }

  /** Rounding. After n >= 1 releases that drained G in total, the fees lie between G/10 - (n - 1) and G/10. */
  lemma FeeDriftBounded(s: State, txs: seq<Timed>, id: Id)
    requires Inv(s)
    ensures var b := BooksOf(Run(s, txs).journal, id);
            && b.fees <= b.Gross() / 10
            && (b.releases >= 1 ==> b.Gross() / 10 <= b.fees + (b.releases - 1))
            && (b.releases == 0 ==> b.Gross() == 0)
  {
    RunKeepsInv(s, txs);
    assert InBooks(Run(s, txs), Return, id);
    DriftArithmetic(BooksOf(Run(s, txs).journal, id));
  }

  lemma DriftArithmetic(b: Books)
    requires 10 * b.fees <= b.net + b.fees <= 10 * b.fees + 9 * b.releases
    ensures b.fees <= b.Gross() / 10
    ensures b.releases >= 1 ==> b.Gross() / 10 <= b.fees + (b.releases - 1)
  {
    var q := b.Gross() / 10;
    assert 10 * q <= b.Gross() < 10 * q + 10;
  }
}
