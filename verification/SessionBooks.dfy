/** Streaming sessions: the account kept for each from the journal, and the fee pot. */
module SessionBooks {
  import opened Chain
  import opened EscrowModel
  import opened EscrowSafety

  datatype Books = Books(deposit: nat, upfront: nat, net: nat, fees: nat, refund: nat, releases: nat) {
    function Gross(): nat { net + fees }
  }

  const NO_BOOKS := Books(0, 0, 0, 0, 0, 0)

  function Post(b: Books, e: Entry, id: Id): Books {
    match e
    case SessionIn(i, amount) => if i == id then b.(deposit := b.deposit + amount) else b
    case UpfrontOut(i, _, amount) => if i == id then b.(upfront := b.upfront + amount) else b
    case StreamOut(i, _, amount, fee) =>
      if i == id then b.(net := b.net + amount, fees := b.fees + fee, releases := b.releases + 1) else b
    case SessionBack(i, _, amount) => if i == id then b.(refund := b.refund + amount) else b
    case _ => b
  }

  function BooksOf(j: seq<Entry>, id: Id): Books
    decreases |j|
  {
    if j == [] then NO_BOOKS else Post(BooksOf(j[..|j| - 1], id), j[|j| - 1], id)
  }

  /** The deposit is accounted for to the wei, the up-front part is a fifth of it, a closed session
      holds nothing, and each release so far rounded its fee down by at most nine tenths of a wei. */
  ghost predicate Balanced(x: Session, b: Books, inFlight: nat) {
    && b.deposit == b.upfront + b.net + b.fees + b.refund + x.remainingBalance + inFlight
    && 5 * b.upfront <= b.deposit < 5 * b.upfront + 5
    && (!x.isActive ==> x.remainingBalance == 0)
    && (x.isActive ==> b.refund == 0)
    && 10 * b.fees <= b.net + b.fees <= 10 * b.fees + 9 * b.releases
    && (b.releases == 0 ==> b.net + b.fees == 0)
    && (x.user == ZERO ==> b == NO_BOOKS)
  }

  function InFlightFor(next: Cont, id: Id): nat {
    if next.RefundSlashed? && next.id == id then next.amount else 0
  }

  ghost predicate InBooks(s: State, next: Cont, id: Id) {
    Balanced(SessionAt(s, id), BooksOf(s.journal, id), InFlightFor(next, id))
  }

  ghost predicate AllInBooks(s: State, next: Cont) {
    forall id :: InBooks(s, next, id)
  }

  /** What a continuation may rely on when the external call comes back. */
  ghost predicate Ready(s: State, next: Cont) {
    match next
    case Return => true
    case RefundStopped(id) => id in s.sessions && s.sessions[id].isActive && s.sessions[id].user != ZERO
    case RefundSlashed(id, user, _) => id in s.sessions && !s.sessions[id].isActive && s.sessions[id].user == user
  }

  ghost predicate PhaseInBooks(p: Phase) {
    match p
    case Fail(_) => true
    case Finish(s) => AllInBooks(s, Return)
    case Call(s, _, next) => AllInBooks(s, next) && Ready(s, next)
  }

  // ----- Reading the books after one more entry -----

  lemma Posted(j: seq<Entry>, e: Entry, id: Id)
    ensures BooksOf(j + [e], id) == Post(BooksOf(j, id), e, id)
  {
    assert (j + [e])[..|j + [e]| - 1] == j;
  }

  /** Nothing about this session moved. */
  ghost predicate Untouched(s: State, next: Cont, s': State, next': Cont, id: Id) {
    && SessionAt(s', id) == SessionAt(s, id)
    && BooksOf(s'.journal, id) == BooksOf(s.journal, id)
    && InFlightFor(next', id) == InFlightFor(next, id)
  }

  lemma UntouchedInBooks(s: State, next: Cont, s': State, next': Cont, id: Id)
    requires InBooks(s, next, id) && Untouched(s, next, s', next', id)
    ensures InBooks(s', next', id)
  {
  }

  /** At most session `id` is touched. */
  ghost predicate Only(s: State, next: Cont, s': State, next': Cont, id: Id) {
    forall i :: i != id ==> Untouched(s, next, s', next', i)
  }

  lemma OnlyInBooks(s: State, next: Cont, s': State, next': Cont, id: Id)
    requires AllInBooks(s, next) && Only(s, next, s', next', id) && InBooks(s', next', id)
    ensures AllInBooks(s', next')
  {
    forall i ensures InBooks(s', next', i) {
      if i != id {
        assert InBooks(s, next, i) && Untouched(s, next, s', next', i);
        UntouchedInBooks(s, next, s', next', i);
      }
    }
  }

  lemma OnlyOne(s: State, next: Cont, s': State, next': Cont, id: Id, x: Session, e: Entry)
    requires s'.sessions == s.sessions[id := x] && s'.journal == s.journal + [e]
    requires (e.StreamOut? || e.SessionBack?) && e.id == id
    requires (next.RefundSlashed? ==> next.id == id) && (next'.RefundSlashed? ==> next'.id == id)
    ensures Only(s, next, s', next', id)
    ensures BooksOf(s'.journal, id) == Post(BooksOf(s.journal, id), e, id)
  {
    Posted(s.journal, e, id);
    forall i | i != id ensures Untouched(s, next, s', next', i) {
      Posted(s.journal, e, i);
    }
  }

  /** A state whose sessions and books are those of another. */
  lemma SameBooks(s: State, next: Cont, s': State, next': Cont)
    requires AllInBooks(s, next)
    requires forall i :: Untouched(s, next, s', next', i)
    ensures AllInBooks(s', next')
  {
    forall i ensures InBooks(s', next', i) {
      assert InBooks(s, next, i) && Untouched(s, next, s', next', i);
      UntouchedInBooks(s, next, s', next', i);
    }
  }

  lemma ForeignKeepsBooks(s: State, s': State, e: Entry)
    requires AllInBooks(s, Return) && s'.sessions == s.sessions && s'.journal == s.journal + [e]
    requires e.EscrowIn? || e.EscrowOut? || e.FeesOut?
    ensures AllInBooks(s', Return)
  {
    forall i ensures Untouched(s, Return, s', Return, i) {
      Posted(s.journal, e, i);
    }
    SameBooks(s, Return, s', Return);
  }

  lemma FrozenKeepsBooks(s: State, s': State, next: Cont)
    requires AllInBooks(s, next) && Ready(s, next) && Frozen(s, s')
    ensures AllInBooks(s', next) && Ready(s', next)
  {
    assert forall i :: Untouched(s, next, s', next, i);
    SameBooks(s, next, s', next);
  }

  // ----- The accounts after each kind of change -----

  lemma StartBalanced(blank: Session, b: Books, x: Session, value: nat, id: Id, e: Entry, e': Entry)
    requires Balanced(blank, b, 0) && blank.user == ZERO
    requires value > 0 && x.user != ZERO && x.isActive && x.remainingBalance == value - Upfront(value)
    requires e == SessionIn(id, value) && e'.UpfrontOut? && e'.id == id && e'.amount == Upfront(value)
    ensures Balanced(x, Post(Post(b, e, id), e', id), 0)
  {
  }

  lemma DripBalanced(x: Session, b: Books, e: Entry, owed: nat, now: nat)
    requires Balanced(x, b, 0) && x.isActive && 0 < owed <= x.remainingBalance
    requires e.StreamOut? && e.fee == Fee(owed) && e.amount == owed - Fee(owed)
    ensures Balanced(x.(remainingBalance := x.remainingBalance - owed, lastPaidAt := now), Post(b, e, e.id), 0)
  {
  }

  lemma RefundBalanced(x: Session, b: Books, inFlight: nat, e: Entry)
    requires Balanced(x, b, inFlight) && x.user != ZERO
    requires e.SessionBack? && e.amount == x.remainingBalance + inFlight
    ensures Balanced(x.(remainingBalance := 0, isActive := false), Post(b, e, e.id), 0)
  {
  }

  lemma StartTouches(s: State, s': State, id: Id, x: Session, a: Entry, b: Entry)
    requires s'.sessions == s.sessions[id := x] && s'.journal == s.journal + [a, b]
    requires a.SessionIn? && b.UpfrontOut? && a.id == b.id == id
    ensures Only(s, Return, s', Return, id)
    ensures BooksOf(s'.journal, id) == Post(Post(BooksOf(s.journal, id), a, id), b, id)
  {
    assert s'.journal == s.journal + [a] + [b];
    Posted(s.journal, a, id);
    Posted(s.journal + [a], b, id);
    forall i | i != id ensures Untouched(s, Return, s', Return, i) {
      Posted(s.journal, a, i);
      Posted(s.journal + [a], b, i);
    }
  }

  lemma StartedInBooks(s: State, s': State, id: Id, x: Session, value: nat, e: Entry, e': Entry)
    requires AllInBooks(s, Return) && SessionAt(s, id).user == ZERO
    requires s'.sessions == s.sessions[id := x] && s'.journal == s.journal + [e, e']
    requires value > 0 && x.user != ZERO && x.isActive && x.remainingBalance == value - Upfront(value)
    requires e == SessionIn(id, value) && e'.UpfrontOut? && e'.id == id && e'.amount == Upfront(value)
    ensures AllInBooks(s', Return)
  {
    StartTouches(s, s', id, x, e, e');
    assert InBooks(s, Return, id);
    StartBalanced(SessionAt(s, id), BooksOf(s.journal, id), x, value, id, e, e');
    assert SessionAt(s', id) == x;
    OnlyInBooks(s, Return, s', Return, id);
  }

  lemma StartKeepsBooks(s: State, sender: Account, value: nat, id: Id, provider: Address, rate: nat, now: nat)
    requires AllInBooks(s, Return)
    ensures PhaseInBooks(BeginStart(s, sender, value, id, provider, rate, now))
  {
    var p := BeginStart(s, sender, value, id, provider, rate, now);
    if p.Call? {
      var up := Upfront(value);
      StartedInBooks(s, p.s, id, Session(sender, provider, rate, value - up, now, true), value,
                     SessionIn(id, value), UpfrontOut(id, provider, up));
    }
  }

  lemma ResumeKeepsBooks(s: State, next: Cont)
    requires AllInBooks(s, next) && Ready(s, next)
    ensures PhaseInBooks(Resume(s, next))
  {
    var p := Resume(s, next);
    match next
    case Return =>
    case RefundStopped(id) =>
      var x := s.sessions[id];
      assert InBooks(s, next, id);
      if p.Call? {
        var e := SessionBack(id, x.user, x.remainingBalance);
        RefundBalanced(x, BooksOf(s.journal, id), 0, e);
        OnlyOne(s, next, p.s, Return, id, x.(remainingBalance := 0, isActive := false), e);
        OnlyInBooks(s, next, p.s, Return, id);
      } else if p.Finish? {
        assert Only(s, next, p.s, Return, id);
        OnlyInBooks(s, next, p.s, Return, id);
      }
    case RefundSlashed(id, user, amount) =>
      var x := s.sessions[id];
      assert InBooks(s, next, id);
      if p.Call? {
        var e := SessionBack(id, user, amount);
        if user != ZERO {
          RefundBalanced(x, BooksOf(s.journal, id), amount, e);
        }
        assert p.s.sessions == s.sessions[id := x];
        OnlyOne(s, next, p.s, Return, id, x, e);
        OnlyInBooks(s, next, p.s, Return, id);
      } else if p.Finish? {
        assert forall i :: Untouched(s, next, s, Return, i);
        SameBooks(s, next, s, Return);
      }
  }

  lemma AccrueKeepsBooks(s: State, id: Id, now: nat, next: Cont)
    requires AllInBooks(s, Return) && id in s.sessions && s.sessions[id].isActive && s.sessions[id].user != ZERO
    requires next == Return || next == RefundStopped(id)
    ensures PhaseInBooks(ReleaseAccrued(s, id, now, next))
  {
    var x := s.sessions[id];
    var p := ReleaseAccrued(s, id, now, next);
    assert InBooks(s, Return, id);
    match Accrued(x, now)
    case Overflow =>
    case Nothing =>
      assert forall i :: Untouched(s, Return, s, next, i);
      SameBooks(s, Return, s, next);
      ResumeKeepsBooks(s, next);
    case Owed(owed) =>
      if p.Call? {
        var e := StreamOut(id, x.provider, owed - Fee(owed), Fee(owed));
        DripBalanced(x, BooksOf(s.journal, id), e, owed, now);
        OnlyOne(s, Return, p.s, next, id, x.(remainingBalance := x.remainingBalance - owed, lastPaidAt := now), e);
        OnlyInBooks(s, Return, p.s, next, id);
      }
  }

  lemma SlashKeepsBooks(s: State, sender: Account, id: Id)
    requires AllInBooks(s, Return)
    ensures PhaseInBooks(BeginSlash(s, sender, id))
  {
    var p := BeginSlash(s, sender, id);
    if p.Call? {
      assert InBooks(s, Return, id);
      assert Only(s, Return, p.s, p.next, id);
      OnlyInBooks(s, Return, p.s, p.next, id);
    }
  }

  lemma BeginKeepsBooks(s: State, sender: Account, value: nat, op: Op, now: nat)
    requires Keyed(s) && AllInBooks(s, Return)
    ensures PhaseInBooks(Begin(s, sender, value, op, now))
  {
    var p := Begin(s, sender, value, op, now);
    match op
    case StartSession(id, provider, rate) => StartKeepsBooks(s, sender, value, id, provider, rate, now);
    case SlashProvider(id) => SlashKeepsBooks(s, sender, id);
    case ReleasePayment(id) =>
      if SessionAt(s, id).isActive && id in s.sessions { AccrueKeepsBooks(s, id, now, Return); }
    case SubmitProof(id) => if SessionAt(s, id).isActive && id in s.sessions { AccrueKeepsBooks(s, id, now, Return); }
    case StopSession(id) =>
      if SessionAt(s, id).isActive && id in s.sessions { AccrueKeepsBooks(s, id, now, RefundStopped(id)); }
    case Dispute(_) => if p.Finish? { FrozenKeepsBooks(s, p.s, Return); }
    case SetReleaseAuthority(_) => if p.Finish? { FrozenKeepsBooks(s, p.s, Return); }
    case SetProofAuthority(_) => if p.Finish? { FrozenKeepsBooks(s, p.s, Return); }
    case TransferOwnership(_) => if p.Finish? { FrozenKeepsBooks(s, p.s, Return); }
    case _ => if !p.Fail? { ForeignKeepsBooks(s, p.s, p.s.journal[|s.journal|]); }
  }

  // ----- The fee pot -----

  datatype Pot = Pot(charged: nat, withdrawn: nat)

  function Drop(p: Pot, e: Entry): Pot {
    match e
    case EscrowOut(_, _, _, fee) => p.(charged := p.charged + fee)
    case StreamOut(_, _, _, fee) => p.(charged := p.charged + fee)
    case FeesOut(_, amount) => p.(withdrawn := p.withdrawn + amount)
    case _ => p
  }

  function FeePot(j: seq<Entry>): Pot
    decreases |j|
  {
    if j == [] then Pot(0, 0) else Drop(FeePot(j[..|j| - 1]), j[|j| - 1])
  }

  /** Every fee ever charged is either still accrued or was withdrawn. */
  ghost predicate PotKept(s: State) {
    FeePot(s.journal).charged == s.accruedFees + FeePot(s.journal).withdrawn
  }

  lemma Dropped(j: seq<Entry>, e: Entry)
    ensures FeePot(j + [e]) == Drop(FeePot(j), e)
  {
    assert (j + [e])[..|j + [e]| - 1] == j;
  }

  /** One entry, and what it does to the fee counter. */
  lemma EntryKeepsPot(s: State, s': State, e: Entry)
    requires PotKept(s) && s'.journal == s.journal + [e]
    requires var one := Drop(Pot(0, 0), e); s'.accruedFees + one.withdrawn == s.accruedFees + one.charged
    ensures PotKept(s')
  {
    Dropped(s.journal, e);
  }

  lemma ResumeKeepsPot(s: State, next: Cont)
    requires PotKept(s)
    ensures var p := Resume(s, next); p.Fail? || PotKept(p.s)
  {
    var p := Resume(s, next);
    if p.Call? {
      match next
      case Return =>
      case RefundStopped(id) =>
        EntryKeepsPot(s, p.s, SessionBack(id, SessionAt(s, id).user, SessionAt(s, id).remainingBalance));
      case RefundSlashed(id, user, amount) => EntryKeepsPot(s, p.s, SessionBack(id, user, amount));
    }
  }

  lemma AccrueKeepsPot(s: State, id: Id, now: nat, next: Cont)
    requires PotKept(s)
    ensures var p := ReleaseAccrued(s, id, now, next); p.Fail? || PotKept(p.s)
  {
    var x := SessionAt(s, id);
    var p := ReleaseAccrued(s, id, now, next);
    match Accrued(x, now)
    case Overflow =>
    case Nothing => ResumeKeepsPot(s, next);
    case Owed(owed) =>
      if p.Call? { EntryKeepsPot(s, p.s, StreamOut(id, x.provider, owed - Fee(owed), Fee(owed))); }
  }

  lemma StartKeepsPot(s: State, sender: Account, value: nat, id: Id, provider: Address, rate: nat, now: nat)
    requires PotKept(s)
    ensures var p := BeginStart(s, sender, value, id, provider, rate, now); p.Fail? || PotKept(p.s)
  {
    var a, b := SessionIn(id, value), UpfrontOut(id, provider, Upfront(value));
    var p := BeginStart(s, sender, value, id, provider, rate, now);
    if p.Call? {
      var s1 := s.(journal := s.journal + [a]);
      EntryKeepsPot(s, s1, a);
      EntryKeepsPot(s1, p.s, b);
    }
  }

  lemma EscrowOpKeepsPot(s: State, sender: Account, value: nat, op: Op, now: nat)
    requires PotKept(s)
    requires op.Deposit? || op.Refund? || op.Release? || op.ResolveDispute? || op.WithdrawFees?
    ensures var p := Begin(s, sender, value, op, now); p.Fail? || PotKept(p.s)
  {
    var p := Begin(s, sender, value, op, now);
    if !p.Fail? {
      match op
      case Deposit(id, _) => EntryKeepsPot(s, p.s, EscrowIn(id, value));
      case WithdrawFees => EntryKeepsPot(s, p.s, FeesOut(s.owner, s.accruedFees));
      case _ => SettlingKeepsPot(s, op.id);
    }
  }

  lemma SettlingKeepsPot(s: State, id: Id)
    requires PotKept(s)
    ensures var p := PayUser(s, id, EscrowAt(s, id)); p.Fail? || PotKept(p.s)
    ensures var p := PayProvider(s, id, EscrowAt(s, id)); p.Fail? || PotKept(p.s)
  {
    var e := EscrowAt(s, id);
    var p, q := PayUser(s, id, e), PayProvider(s, id, e);
    if p.Call? { EntryKeepsPot(s, p.s, EscrowOut(id, e.user, e.amount, 0)); }
    if q.Call? { EntryKeepsPot(s, q.s, EscrowOut(id, e.provider, e.amount - Fee(e.amount), Fee(e.amount))); }
  }

  lemma BeginKeepsPot(s: State, sender: Account, value: nat, op: Op, now: nat)
    requires PotKept(s)
    ensures var p := Begin(s, sender, value, op, now); p.Fail? || PotKept(p.s)
  {
    match op
    case StartSession(id, provider, rate) => StartKeepsPot(s, sender, value, id, provider, rate, now);
    case ReleasePayment(id) => AccrueKeepsPot(s, id, now, Return);
    case SubmitProof(id) => AccrueKeepsPot(s, id, now, Return);
    case StopSession(id) => AccrueKeepsPot(s, id, now, RefundStopped(id));
    case SlashProvider(_) =>
    case Dispute(_) =>
    case SetReleaseAuthority(_) =>
    case SetProofAuthority(_) =>
    case TransferOwnership(_) =>
    case _ => EscrowOpKeepsPot(s, sender, value, op, now);
  }
}
