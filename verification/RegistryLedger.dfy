/** Every provider's stake, accounted for to the wei over every run. */
module RegistryLedger {
  import opened Chain
  import opened RegistryModel
  import opened RegistryRuns

  /** What one wallet put in, was paid back, and lost to slashes. */
  datatype Ledger = Ledger(put: nat, back: nat, slashed: nat, slashes: nat)

  function Book(l: Ledger, e: Entry, a: Address): Ledger {
    match e
    case StakeIn(wallet, amount) => if wallet == a then l.(put := l.put + amount) else l
    case StakeOut(_, to, amount) => if to == a then l.(back := l.back + amount) else l
    case SlashOut(wallet, _, amount) =>
      if wallet == a then l.(slashed := l.slashed + amount, slashes := l.slashes + 1) else l
  }

  function LedgerOf(j: seq<Entry>, a: Address): Ledger
    decreases |j|
  {
    if j == [] then Ledger(0, 0, 0, 0) else Book(LedgerOf(j[..|j| - 1], a), j[|j| - 1], a)
  }

  ghost predicate InLedger(s: State, a: Address) {
    var l, p := LedgerOf(s.journal, a), ProviderAt(s, a);
    l.put == l.back + l.slashed + p.stakedAmount && l.slashes == p.slashCount
  }

  ghost predicate AllInLedger(s: State) {
    forall a :: InLedger(s, a)
  }

  lemma Booked(j: seq<Entry>, e: Entry, a: Address)
    ensures LedgerOf(j + [e], a) == Book(LedgerOf(j, a), e, a)
  {
    assert (j + [e])[..|j + [e]| - 1] == j;
  }

  /** One entry and the one record it is about. */
  lemma EntryKeeps(s: State, s': State, a: Address, e: Entry)
    requires AllInLedger(s) && s'.journal == s.journal + [e]
    requires forall b :: b != a ==> ProviderAt(s', b) == ProviderAt(s, b)
    requires e.wallet == a && (e.StakeOut? ==> e.to == a)
    requires var p, p' := ProviderAt(s, a), ProviderAt(s', a);
             match e
             case StakeIn(_, amount) => p'.stakedAmount == p.stakedAmount + amount && p'.slashCount == p.slashCount
             case StakeOut(_, _, amount) => p'.stakedAmount == p.stakedAmount - amount && p'.slashCount == p.slashCount
             case SlashOut(_, _, amount) =>
               p'.stakedAmount == p.stakedAmount - amount && p'.slashCount == p.slashCount + 1
    ensures AllInLedger(s')
  {
    forall b ensures InLedger(s', b) {
      assert InLedger(s, b);
      Booked(s.journal, e, b);
    }
  }

  lemma QuietKeeps(s: State, s': State)
    requires AllInLedger(s) && s'.journal == s.journal
    requires forall a :: ProviderAt(s', a).stakedAmount == ProviderAt(s, a).stakedAmount
                      && ProviderAt(s', a).slashCount == ProviderAt(s, a).slashCount
    ensures AllInLedger(s')
  {
    forall a ensures InLedger(s', a) {
      assert InLedger(s, a);
    }
  }

  lemma BeginKeepsLedger(s: State, sender: Account, value: nat, op: Op)
    requires AllInLedger(s) && Orderly(s)
    ensures var ph := Begin(s, sender, value, op); ph.Fail? || AllInLedger(ph.s)
  {
    var ph := Begin(s, sender, value, op);
    if !ph.Fail? {
      if op.Register? || op.Stake? {
        EntryKeeps(s, ph.s, sender, StakeIn(sender, value));
      } else if op.Unstake? {
        EntryKeeps(s, ph.s, sender, StakeOut(sender, sender, op.amount));
      } else if op.Slash? {
        EntryKeeps(s, ph.s, op.wallet, SlashOut(op.wallet, s.owner, ProviderAt(s, op.wallet).stakedAmount / 2));
      } else {
        QuietKeeps(s, ph.s);
      }
    }
  }

  lemma EnteredKeepsLedger(s: State, tx: Tx)
    requires Inv(s) && AllInLedger(s) && Enter(s, tx.value, tx.op) == Open
    ensures var ph := Begin(Admit(s, tx.value, tx.op), tx.sender, tx.value, tx.op);
            ph.Fail? || (Inv(ph.s) && AllInLedger(ph.s))
  {
    var s0 := Admit(s, tx.value, tx.op);
    QuietKeeps(s, s0);
    StakedSame(s, s0, s.providerList);
    BeginKeeps(s0, tx.sender, tx.value, tx.op);
    BeginKeepsLedger(s0, tx.sender, tx.value, tx.op);
  }

  lemma {:induction false} ExecKeepsLedger(s: State, tx: Tx)
    requires Inv(s) && AllInLedger(s)
    ensures AllInLedger(After(s, Exec(s, tx)))
    decreases tx
  {
    if Enter(s, tx.value, tx.op) == Open {
      EnteredKeepsLedger(s, tx);
      match Begin(Admit(s, tx.value, tx.op), tx.sender, tx.value, tx.op)
      case Fail(_) =>
      case Finish(s1) => QuietKeeps(s1, s1.(locked := s.locked));
      case Call(s1) =>
        HandoverKeepsLedger(s1, tx.callee.calls);
        var h := Handover(s1, tx.callee.calls).s;
        QuietKeeps(h, h.(locked := s.locked));
    }
  }

  lemma {:induction false} HandoverKeepsLedger(s: State, calls: seq<Tx>)
    requires Inv(s) && AllInLedger(s)
    ensures AllInLedger(Handover(s, calls).s)
    decreases calls
  {
    if calls != [] {
      ExecKeeps(s, calls[0]);
      ExecKeepsLedger(s, calls[0]);
      HandoverKeepsLedger(After(s, Exec(s, calls[0])), calls[1..]);
    }
  }

  lemma {:induction false} RunKeepsLedger(s: State, txs: seq<Tx>)
    requires Inv(s) && AllInLedger(s)
    ensures AllInLedger(Run(s, txs))
    decreases |txs|
  {
    if txs != [] {
      ExecKeeps(s, txs[0]);
      ExecKeepsLedger(s, txs[0]);
      RunKeepsLedger(After(s, Exec(s, txs[0])), txs[1..]);
    }
  }

  /** After every run from deployment, callbacks included, each wallet's stake is what it put in less what it
      was itself paid back and what was slashed, and the slash counter counts the slashes. */
  lemma StakeAccounted(owner: Account, authority: Address, txs: seq<Tx>, a: Address)
    ensures var s := Run(Init(owner, authority), txs); var l := LedgerOf(s.journal, a);
            && l.put == l.back + l.slashed + ProviderAt(s, a).stakedAmount
            && l.slashes == ProviderAt(s, a).slashCount
  {
    InitInv(owner, authority);
    assert AllInLedger(Init(owner, authority));
    RunKeepsLedger(Init(owner, authority), txs);
    assert InLedger(Run(Init(owner, authority), txs), a);
  }
}
