/** One-shot escrows: the account kept for each from the journal, and the one account its status allows. */
module EscrowTills {
  import opened Chain
  import opened EscrowModel
  import opened EscrowSafety

  /** The deposits and payments made for one escrow, their sums, the latest payee and the fees kept. */
  datatype Till = Till(deposits: nat, received: nat, payments: nat, payee: Address, paid: nat, fees: nat)

  const EMPTY_TILL := Till(0, 0, 0, ZERO, 0, 0)

  function Ring(c: Till, e: Entry, id: Id): Till {
    match e
    case EscrowIn(i, amount) =>
      if i == id then c.(deposits := c.deposits + 1, received := c.received + amount) else c
    case EscrowOut(i, to, amount, fee) =>
      if i == id then c.(payments := c.payments + 1, payee := to, paid := c.paid + amount, fees := c.fees + fee) else c
    case _ => c
  }

  function EscrowTill(j: seq<Entry>, id: Id): Till
    decreases |j|
  {
    if j == [] then EMPTY_TILL else Ring(EscrowTill(j[..|j| - 1], id), j[|j| - 1], id)
  }

  /** One deposit, nothing paid while the escrow is open, and one payment once it is settled: to the
      user in full, or to the provider less a tenth. */
  function LawfulTill(e: Escrow): Till {
    if e.user == ZERO then EMPTY_TILL
    else
      match e.status
      case Pending => Till(1, e.amount, 0, ZERO, 0, 0)
      case Disputed => Till(1, e.amount, 0, ZERO, 0, 0)
      case Released => Till(1, e.amount, 1, e.provider, e.amount - e.amount / 10, e.amount / 10)
      case Refunded => Till(1, e.amount, 1, e.user, e.amount, 0)
  }

  ghost predicate Lawful(s: State, id: Id) {
    EscrowTill(s.journal, id) == LawfulTill(EscrowAt(s, id))
  }

  ghost predicate AllLawful(s: State) {
    forall id :: Lawful(s, id)
  }

  ghost predicate PhaseLawful(p: Phase) {
    p.Fail? || AllLawful(p.s)
  }

  lemma Rung(j: seq<Entry>, e: Entry, id: Id)
    ensures EscrowTill(j + [e], id) == Ring(EscrowTill(j, id), e, id)
  {
    assert (j + [e])[..|j + [e]| - 1] == j;
  }

  /** Entries that are not about one-shot escrows. */
  ghost predicate Foreign(es: seq<Entry>) {
    forall i :: 0 <= i < |es| ==> !es[i].EscrowIn? && !es[i].EscrowOut?
  }

  lemma {:induction false} ForeignRung(j: seq<Entry>, es: seq<Entry>, id: Id)
    requires Foreign(es)
    ensures EscrowTill(j + es, id) == EscrowTill(j, id)
    decreases |es|
  {
    if es == [] {
      assert j + es == j;
    } else {
      var init := es[..|es| - 1];
      assert j + es == (j + init) + [es[|es| - 1]];
      Rung(j + init, es[|es| - 1], id);
      ForeignRung(j, init, id);
    }
  }

  lemma ForeignKeepsLawful(s: State, s': State, es: seq<Entry>)
    requires AllLawful(s) && s'.escrows == s.escrows && s'.journal == s.journal + es && Foreign(es)
    ensures AllLawful(s')
  {
    forall id ensures Lawful(s', id) {
      assert Lawful(s, id);
      ForeignRung(s.journal, es, id);
    }
  }

  lemma FrozenKeepsLawful(s: State, s': State)
    requires AllLawful(s) && Frozen(s, s')
    ensures AllLawful(s')
  {
    forall id ensures Lawful(s', id) {
      assert Lawful(s, id);
    }
  }

  lemma MoveKeepsLawful(s: State, s': State, id: Id, e: Escrow, entry: Entry)
    requires AllLawful(s) && (entry.EscrowIn? || entry.EscrowOut?) && entry.id == id
    requires s'.escrows == s.escrows[id := e] && s'.journal == s.journal + [entry]
    requires Ring(LawfulTill(EscrowAt(s, id)), entry, id) == LawfulTill(e)
    ensures AllLawful(s')
  {
    forall i ensures Lawful(s', i) {
      assert Lawful(s, i);
      Rung(s.journal, entry, i);
    }
  }

  lemma SettleKeepsLawful(s: State, id: Id)
    requires AllLawful(s) && id in s.escrows && s.escrows[id].user != ZERO
    requires s.escrows[id].status == Pending || s.escrows[id].status == Disputed
    ensures PhaseLawful(PayUser(s, id, s.escrows[id]))
    ensures PhaseLawful(PayProvider(s, id, s.escrows[id]))
  {
    var e := s.escrows[id];
    var p := PayUser(s, id, e);
    if p.Call? {
      MoveKeepsLawful(s, p.s, id, e.(status := Refunded), EscrowOut(id, e.user, e.amount, 0));
    }
    var q := PayProvider(s, id, e);
    if q.Call? {
      MoveKeepsLawful(s, q.s, id, e.(status := Released),
                      EscrowOut(id, e.provider, e.amount - Fee(e.amount), Fee(e.amount)));
    }
  }

  lemma ResumeKeepsLawful(s: State, next: Cont)
    requires AllLawful(s)
    ensures PhaseLawful(Resume(s, next))
  {
    var p := Resume(s, next);
    if p.Call? && next != Return {
      ForeignKeepsLawful(s, p.s, [p.s.journal[|s.journal|]]);
    } else if p.Finish? {
      ForeignKeepsLawful(s, p.s, []);
    }
  }

  lemma AccrueKeepsLawful(s: State, id: Id, now: nat, next: Cont)
    requires AllLawful(s)
    ensures PhaseLawful(ReleaseAccrued(s, id, now, next))
  {
    var p := ReleaseAccrued(s, id, now, next);
    match Accrued(SessionAt(s, id), now)
    case Overflow =>
    case Nothing => ResumeKeepsLawful(s, next);
    case Owed(_) => if p.Call? { ForeignKeepsLawful(s, p.s, [p.s.journal[|s.journal|]]); }
  }

  lemma BeginKeepsLawful(s: State, sender: Account, value: nat, op: Op, now: nat)
    requires Keyed(s) && AllLawful(s)
    ensures PhaseLawful(Begin(s, sender, value, op, now))
  {
    var p := Begin(s, sender, value, op, now);
    match op
    case Deposit(id, provider) =>
      if p.Finish? {
        MoveKeepsLawful(s, p.s, id, Escrow(sender, provider, value, now, Pending), EscrowIn(id, value));
      }
    case StartSession(id, provider, _) =>
      if p.Call? {
        var es := [SessionIn(id, value), UpfrontOut(id, provider, Upfront(value))];
        assert p.s.journal == s.journal + es;
        ForeignKeepsLawful(s, p.s, es);
      }
    case WithdrawFees => if p.Call? { ForeignKeepsLawful(s, p.s, [FeesOut(s.owner, s.accruedFees)]); }
    case SlashProvider(_) => if p.Call? { ForeignKeepsLawful(s, p.s, []); }
    case ReleasePayment(id) => AccrueKeepsLawful(s, id, now, Return);
    case SubmitProof(id) => AccrueKeepsLawful(s, id, now, Return);
    case StopSession(id) => AccrueKeepsLawful(s, id, now, RefundStopped(id));
    case Refund(id) => if id in s.escrows && s.escrows[id].status == Pending { SettleKeepsLawful(s, id); }
    case Release(id) => if id in s.escrows && s.escrows[id].status == Pending { SettleKeepsLawful(s, id); }
    case ResolveDispute(id, _) => if id in s.escrows && s.escrows[id].status == Disputed { SettleKeepsLawful(s, id); }
    case Dispute(_) => if p.Finish? { FrozenKeepsLawful(s, p.s); }
    case SetReleaseAuthority(_) => if p.Finish? { FrozenKeepsLawful(s, p.s); }
    case SetProofAuthority(_) => if p.Finish? { FrozenKeepsLawful(s, p.s); }
    case TransferOwnership(_) => if p.Finish? { FrozenKeepsLawful(s, p.s); }
  }
}
