/** What every run of the registry keeps, callbacks included, and what slashing does to a stake. */
module RegistryRuns {
  import opened Chain
  import opened Arithmetic
  import opened RegistryModel

  /** The stakes of the enumerated providers. */
  function Staked(s: State, list: seq<Address>): nat
    decreases |list|
  {
    if list == [] then 0 else Staked(s, list[..|list| - 1]) + ProviderAt(s, list[|list| - 1]).stakedAmount
  }

  ghost predicate NoDuplicates(list: seq<Address>) {
    forall i, j :: 0 <= i < j < |list| ==> list[i] != list[j]
  }

  /** The list is duplicate-free and is exactly the registered wallets; a record is filed under its own
      wallet; and an active provider has the minimum stake. */
  ghost predicate Orderly(s: State) {
    && NoDuplicates(s.providerList)
    && (forall a :: a in s.providerList <==> a in s.providers)
    && (forall a :: a in s.providers ==> a != ZERO && s.providers[a].wallet == a)
    && (forall a :: a in s.providers && s.providers[a].active ==> s.providers[a].stakedAmount >= MIN_STAKE)
  }

  ghost predicate Inv(s: State) {
    Orderly(s) && s.balance == Staked(s, s.providerList)
  }

  lemma {:induction false} StakedElsewhere(s: State, a: Address, p: Provider, list: seq<Address>)
    requires a !in list
    ensures Staked(Put(s, a, p), list) == Staked(s, list)
    decreases |list|
  {
    if list != [] {
      StakedElsewhere(s, a, p, list[..|list| - 1]);
    }
  }

  /** Writing one record changes the total by the difference at that record. */
  lemma {:induction false} StakedPut(s: State, a: Address, p: Provider, list: seq<Address>)
    requires NoDuplicates(list) && a in list
    ensures Staked(Put(s, a, p), list) == Staked(s, list) - ProviderAt(s, a).stakedAmount + p.stakedAmount
    ensures Staked(s, list) >= ProviderAt(s, a).stakedAmount
    decreases |list|
  {
    var init, last := list[..|list| - 1], list[|list| - 1];
    if last == a {
      StakedElsewhere(s, a, p, init);
    } else {
      StakedPut(s, a, p, init);
    }
  }

  lemma {:induction false} StakedSame(s: State, s': State, list: seq<Address>)
    requires forall a :: a in list ==> ProviderAt(s', a).stakedAmount == ProviderAt(s, a).stakedAmount
    ensures Staked(s', list) == Staked(s, list)
    decreases |list|
  {
    if list != [] {
      StakedSame(s, s', list[..|list| - 1]);
    }
  }

  /** Changing a registered provider's record keeps order. */
  lemma PutKeepsOrder(s: State, a: Address, p: Provider)
    requires Orderly(s) && a in s.providers && p.wallet == a && (p.active ==> p.stakedAmount >= MIN_STAKE)
    ensures Orderly(Put(s, a, p))
  {
  }

  lemma AppendKeepsOrder(s: State, s': State, a: Account, p: Provider)
    requires Orderly(s) && a !in s.providers && p.wallet == a && p.stakedAmount >= MIN_STAKE
    requires s'.providers == s.providers[a := p] && s'.providerList == s.providerList + [a]
    ensures Orderly(s')
  {
    assert forall b :: b in s'.providerList <==> b in s.providerList || b == a;
  }

  lemma RegisterKeeps(s: State, sender: Account, value: nat, endpoint: string, price: nat)
    requires Orderly(s) && s.balance == Staked(s, s.providerList) + value
    ensures var ph := BeginRegister(s, sender, value, endpoint, price); ph.Fail? || Inv(ph.s)
  {
    var ph := BeginRegister(s, sender, value, endpoint, price);
    if ph.Finish? {
      var p := Provider(sender, endpoint, price, value, 0, 0, true);
      AppendKeepsOrder(s, ph.s, sender, p);
      StakedAppend(s, ph.s, sender, p);
    }
  }

  lemma StakedAppend(s: State, s': State, a: Account, p: Provider)
    requires a !in s.providerList
    requires s'.providers == s.providers[a := p] && s'.providerList == s.providerList + [a]
    ensures Staked(s', s'.providerList) == Staked(s, s.providerList) + p.stakedAmount
  {
    assert s'.providerList[..|s'.providerList| - 1] == s.providerList;
    StakedElsewhere(s, a, p, s.providerList);
    StakedSame(Put(s, a, p), s', s.providerList);
  }

  /** A registered provider's record changes, and the balance with its stake. */
  lemma MoveKeeps(s: State, s': State, a: Address, p: Provider)
    requires Orderly(s) && a in s.providers && p.wallet == a && (p.active ==> p.stakedAmount >= MIN_STAKE)
    requires s' == Put(s, a, p).(balance := s'.balance, journal := s'.journal)
    requires s'.balance == Staked(s, s.providerList) - s.providers[a].stakedAmount + p.stakedAmount
    ensures Inv(s')
  {
    PutKeepsOrder(s, a, p);
    StakedPut(s, a, p, s.providerList);
    StakedSame(Put(s, a, p), s', s.providerList);
    assert Orderly(s');
  }

  lemma StakeKeeps(s: State, sender: Account, value: nat)
    requires Orderly(s) && s.balance == Staked(s, s.providerList) + value
    ensures var ph := BeginStake(s, sender, value); ph.Fail? || Inv(ph.s)
  {
    var ph := BeginStake(s, sender, value);
    if ph.Finish? {
      MoveKeeps(s, ph.s, sender, ph.s.providers[sender]);
    }
  }

  lemma PayoutKeeps(s: State, sender: Account, op: Op)
    requires Inv(s) && (op.Unstake? || op.Slash?)
    ensures var ph := Begin(s, sender, 0, op);
            (ph.Fail? ==> ph.error != TransferFailed) && (ph.Fail? || Inv(ph.s))
  {
    var a: Address := if op.Slash? then op.wallet else sender;
    if a in s.providers {
      StakedPut(s, a, s.providers[a], s.providerList);
      var ph := Begin(s, sender, 0, op);
      if ph.Call? {
        MoveKeeps(s, ph.s, a, ph.s.providers[a]);
      }
    }
  }

  lemma RecordKeeps(s: State, sender: Account, op: Op)
    requires Inv(s) && (op.Update? || op.Deactivate? || op.Reactivate? || op.RecordJobCompleted?)
    ensures var ph := Begin(s, sender, 0, op); ph.Fail? || Inv(ph.s)
  {
    var a: Address := if op.RecordJobCompleted? then op.wallet else sender;
    if a in s.providers {
      var ph := Begin(s, sender, 0, op);
      if ph.Finish? {
        MoveKeeps(s, ph.s, a, ph.s.providers[a]);
      }
    }
  }

  lemma AdminKeeps(s: State, s': State)
    requires Inv(s)
    requires s' == s.(owner := s'.owner, slashAuthority := s'.slashAuthority, locked := s'.locked)
    ensures Inv(s')
  {
    StakedSame(s, s', s.providerList);
  }

  lemma BeginKeeps(s: State, sender: Account, value: nat, op: Op)
    requires Orderly(s) && s.balance == Staked(s, s.providerList) + value
    requires value > 0 ==> Payable(op)
    ensures var ph := Begin(s, sender, value, op);
            (ph.Fail? ==> ph.error != TransferFailed) && (ph.Fail? || (Inv(ph.s) && ph.s.locked == s.locked))
  {
    var ph := Begin(s, sender, value, op);
    match op
    case Register(endpoint, price) => RegisterKeeps(s, sender, value, endpoint, price);
    case Stake => StakeKeeps(s, sender, value);
    case Unstake(_) => PayoutKeeps(s, sender, op);
    case Slash(_) => PayoutKeeps(s, sender, op);
    case SetSlashAuthority(_) => if ph.Finish? { AdminKeeps(s, ph.s); }
    case TransferOwnership(_) => if ph.Finish? { AdminKeeps(s, ph.s); }
    case _ => RecordKeeps(s, sender, op);
  }

  /** A transaction keeps the invariant, and every state it shows to foreign code satisfies it too. */
  lemma {:induction false} ExecKeeps(s: State, tx: Tx)
    requires Inv(s)
    ensures Inv(After(s, Exec(s, tx))) && After(s, Exec(s, tx)).locked == s.locked
    ensures forall i :: 0 <= i < |Exec(s, tx).seen| ==> Inv(Exec(s, tx).seen[i])
    decreases tx
  {
    if Enter(s, tx.value, tx.op) == Open {
      var s0 := Admit(s, tx.value, tx.op);
      StakedSame(s, s0, s.providerList);
      BeginKeeps(s0, tx.sender, tx.value, tx.op);
      match Begin(s0, tx.sender, tx.value, tx.op)
      case Fail(_) =>
      case Finish(s1) => AdminKeeps(s1, s1.(locked := s.locked));
      case Call(s1) =>
        HandoverKeeps(s1, tx.callee.calls);
        AdminKeeps(Handover(s1, tx.callee.calls).s, Handover(s1, tx.callee.calls).s.(locked := s.locked));
    }
  }

  lemma {:induction false} HandoverKeeps(s: State, calls: seq<Tx>)
    requires Inv(s)
    ensures Inv(Handover(s, calls).s) && Handover(s, calls).s.locked == s.locked
    ensures forall i :: 0 <= i < |Handover(s, calls).seen| ==> Inv(Handover(s, calls).seen[i])
    decreases calls
  {
    if calls != [] {
      ExecKeeps(s, calls[0]);
      HandoverKeeps(After(s, Exec(s, calls[0])), calls[1..]);
    }
  }

  /** After every run from deployment, and in every state a called-back party sees on the way, the balance
      is the sum of the enumerated stakes and the enumeration is exactly the registered wallets. */
  lemma {:induction false} InvInEveryRun(s: State, txs: seq<Tx>)
    requires Inv(s)
    ensures Inv(Run(s, txs))
    ensures forall i :: 0 <= i < |Observed(s, txs)| ==> Inv(Observed(s, txs)[i])
    decreases |txs|
  {
    if txs != [] {
      ExecKeeps(s, txs[0]);
      InvInEveryRun(After(s, Exec(s, txs[0])), txs[1..]);
    }
  }

  lemma InitInv(owner: Account, authority: Address)
    ensures Inv(Init(owner, authority)) && !Init(owner, authority).locked
  {
  }

  // ----- Slashing -----

  /** a / b, rounded up. */
  function CeilDiv(a: nat, b: nat): nat
    requires b > 0
  {
    (a + b - 1) / b
  }

  /** `c` is the ceiling of `a / b`. */
  lemma CeilUnique(a: nat, b: nat, c: nat)
    requires b > 0 && (c - 1) * b < a <= c * b
    ensures (a + b - 1) / b == c
  {
    assert (a + b - 1) - b * c < b && (a + b - 1) - b * c >= 0;
    DivUnique(a + b - 1, b, c);
  }

  /** A multiple of `b` strictly between -b and b is zero. */
  lemma SmallMultiple(b: int, z: int)
    requires b > 0
    ensures -b < b * z < b ==> z == 0
  {
    if z >= 1 {
      assert b * z >= b;
    } else if z <= -1 {
      assert b * z <= -b;
    }
  }

  lemma DivUnique(x: nat, b: nat, q: nat)
    requires b > 0 && 0 <= x - b * q < b
    ensures x / b == q
  {
    var d := x / b;
    assert x == b * d + x % b;
    assert b * (d - q) == b * d - b * q;
    SmallMultiple(b, d - q);
  }

  lemma CeilBounds(a: nat, b: nat)
    requires b > 0
    ensures var c := (a + b - 1) / b; (c - 1) * b < a <= c * b
  {
    var x := a + b - 1;
    assert x == b * (x / b) + x % b;
  }

  lemma HalveCeil(a: nat, b: int, h: int, odd: int)
    requires b > 0 && (odd == 0 || odd == 1) && (2 * h - odd - 1) * b < a <= (2 * h - odd) * b
    ensures (h - 1) * (2 * b) < a <= h * (2 * b)
  {
    assert (2 * h - odd - 1) * b == 2 * (h * b) - odd * b - b;
    assert (2 * h - odd) * b == 2 * (h * b) - odd * b;
    assert h * (2 * b) == 2 * (h * b);
    assert (h - 1) * (2 * b) == 2 * (h * b) - 2 * b;
    assert odd * b == if odd == 0 then 0 else b;
  }

  /** A stake after `k` slashes, one at a time. */
  function Halved(stake: nat, k: nat): nat {
    if k == 0 then stake
    else
      var before := Halved(stake, k - 1);
      before - before / 2
  }

  lemma CeilStep(stake: nat, b: nat, c: nat)
    requires b > 0 && c == CeilDiv(stake, b)
    ensures c - c / 2 == CeilDiv(stake, 2 * b)
    ensures stake > 0 ==> c > 0
  {
    var h := c - c / 2;
    CeilBounds(stake, b);
    HalveCeil(stake, b, h, 2 * h - c);
    CeilUnique(stake, 2 * b, h);
  }

  /** Slashing one at a time rounds up only once: k slashes leave the ceiling of S / 2^k. */
  lemma {:induction false} HalvedIsCeiling(stake: nat, k: nat)
    ensures Halved(stake, k) == CeilDiv(stake, Pow2(k))
    ensures stake > 0 ==> Halved(stake, k) > 0
  {
    if k == 0 {
      assert Pow2(0) == 1;
    } else {
      HalvedIsCeiling(stake, k - 1);
      CeilStep(stake, Pow2(k - 1), Halved(stake, k - 1));
    }
  }

  /** Called-back parties cannot move a stake. */
  ghost predicate SameStakes(s: State, s': State) {
    && s'.balance == s.balance && s'.locked == s.locked && s'.journal == s.journal
    && s'.providers.Keys == s.providers.Keys
    && forall a :: a in s.providers ==>
         && s'.providers[a].stakedAmount == s.providers[a].stakedAmount
         && s'.providers[a].wallet == s.providers[a].wallet
  }

  lemma UnguardedKeepsStakes(s: State, sender: Account, op: Op)
    requires Orderly(s) && !Guarded(op)
    ensures var ph := Begin(s, sender, 0, op); !ph.Call? && (ph.Fail? || SameStakes(s, ph.s))
  {
  }

  lemma LockedKeepsStakes(s: State, tx: Tx)
    requires s.locked && Orderly(s)
    ensures SameStakes(s, After(s, Exec(s, tx)))
  {
    if Enter(s, tx.value, tx.op) == Open {
      assert Admit(s, tx.value, tx.op) == s;
      UnguardedKeepsStakes(s, tx.sender, tx.op);
    }
  }

  lemma {:induction false} HandoverKeepsStakes(s: State, calls: seq<Tx>)
    requires s.locked && Inv(s)
    ensures SameStakes(s, Handover(s, calls).s)
    decreases |calls|
  {
    if calls != [] {
      LockedKeepsStakes(s, calls[0]);
      ExecKeeps(s, calls[0]);
      HandoverKeepsStakes(After(s, Exec(s, calls[0])), calls[1..]);
    }
  }

  /** `s1` is `s` with half of one stake paid to the owner. */
  ghost predicate HalfPaid(s: State, s1: State, wallet: Address) {
    var stake := ProviderAt(s, wallet).stakedAmount;
    && ProviderAt(s1, wallet).stakedAmount == stake - stake / 2
    && s1.balance == s.balance - stake / 2
    && s1.journal == s.journal + [SlashOut(wallet, s.owner, stake / 2)]
    && (forall a :: a != wallet ==> ProviderAt(s1, a).stakedAmount == ProviderAt(s, a).stakedAmount)
  }

  lemma BeginSlashHalves(s: State, sender: Account, wallet: Address)
    requires BeginSlash(s, sender, wallet).Call?
    ensures HalfPaid(s, BeginSlash(s, sender, wallet).s, wallet)
  {
  }

  lemma SlashEnters(s: State, tx: Tx)
    requires tx.op.Slash? && Exec(s, tx).Done?
    ensures tx.value == 0 && !s.locked && BeginSlash(s.(locked := true), tx.sender, tx.op.wallet).Call?
    ensures Exec(s, tx).s
         == Handover(BeginSlash(s.(locked := true), tx.sender, tx.op.wallet).s, tx.callee.calls).s.(locked := false)
  {
    assert Admit(s, tx.value, tx.op) == s.(locked := true);
  }

  /** The state a slash hands to the owner. */
  lemma SlashBegins(s: State, tx: Tx) returns (s1: State)
    requires Inv(s) && tx.op.Slash? && Exec(s, tx).Done?
    ensures s1.locked && Inv(s1) && HalfPaid(s, s1, tx.op.wallet)
    ensures Exec(s, tx).s == Handover(s1, tx.callee.calls).s.(locked := false)
  {
    SlashEnters(s, tx);
    var s0 := s.(locked := true);
    StakedSame(s, s0, s.providerList);
    BeginKeeps(s0, tx.sender, 0, tx.op);
    BeginSlashHalves(s0, tx.sender, tx.op.wallet);
    s1 := BeginSlash(s0, tx.sender, tx.op.wallet).s;
  }

  lemma SameStakesHalfPaid(s: State, s1: State, s2: State, wallet: Address)
    requires HalfPaid(s, s1, wallet) && s2.balance == s1.balance && s2.journal == s1.journal
    requires forall a :: ProviderAt(s2, a).stakedAmount == ProviderAt(s1, a).stakedAmount
    ensures HalfPaid(s, s2, wallet)
  {
  }

  /** One slash: half of the stake, rounded down, goes to the owner, and no other stake moves. */
  lemma SlashOnce(s: State, tx: Tx)
    requires Inv(s) && tx.op.Slash? && Exec(s, tx).Done?
    ensures HalfPaid(s, Exec(s, tx).s, tx.op.wallet) && Inv(Exec(s, tx).s)
  {
    ExecKeeps(s, tx);
    var s1 := SlashBegins(s, tx);
    HandoverKeepsStakes(s1, tx.callee.calls);
    SameStakesHalfPaid(s, s1, Exec(s, tx).s, tx.op.wallet);
  }

  /** All the slashes of `txs` against `wallet` go through, one directly after the other. */
  ghost predicate AllSlash(s: State, txs: seq<Tx>, wallet: Address)
    decreases |txs|
  {
    txs == []
    || (txs[0].op == Slash(wallet) && Exec(s, txs[0]).Done? && AllSlash(Exec(s, txs[0]).s, txs[1..], wallet))
  }

  /** Slash number j + 1 of a stake pays half of what j slashes left to the owner of that moment. */
  function SlashEntries(s: State, txs: seq<Tx>, wallet: Address, stake: nat, j: nat): seq<Entry>
    decreases |txs|
  {
    if txs == [] then []
    else
      [SlashOut(wallet, s.owner, Halved(stake, j) / 2)]
      + SlashEntries(After(s, Exec(s, txs[0])), txs[1..], wallet, stake, j + 1)
  }

  lemma FirstSlash(s: State, txs: seq<Tx>, wallet: Address, stake: nat, j: nat) returns (s1: State, e: Entry)
    requires Inv(s) && txs != [] && AllSlash(s, txs, wallet) && ProviderAt(s, wallet).stakedAmount == Halved(stake, j)
    ensures Inv(s1) && AllSlash(s1, txs[1..], wallet) && Run(s, txs) == Run(s1, txs[1..])
    ensures s1 == After(s, Exec(s, txs[0])) && ProviderAt(s1, wallet).stakedAmount == Halved(stake, j + 1)
    ensures s.balance - s1.balance == Halved(stake, j) - Halved(stake, j + 1)
    ensures s1.journal == s.journal + [e]
    ensures SlashEntries(s, txs, wallet, stake, j) == [e] + SlashEntries(s1, txs[1..], wallet, stake, j + 1)
  {
    SlashOnce(s, txs[0]);
    s1, e := Exec(s, txs[0]).s, SlashOut(wallet, s.owner, Halved(stake, j) / 2);
  }

  /** What every transaction keeps of the state and the transactions still to come holds at the end. */
  lemma {:induction false} RunKeeps(inv: (State, seq<Tx>) -> bool, s: State, txs: seq<Tx>)
    requires inv(s, txs)
    requires forall x: State, rest: seq<Tx> :: rest != [] && inv(x, rest) ==> inv(After(x, Exec(x, rest[0])), rest[1..])
    ensures inv(Run(s, txs), [])
    decreases |txs|
  {
    if txs != [] {
      RunKeeps(inv, After(s, Exec(s, txs[0])), txs[1..]);
    }
  }

  /** `x` stands where the slashes before `rest` left it, and `rest` will add the remaining entries to `journal`. */
  ghost predicate SlashedSoFar(x: State, rest: seq<Tx>, wallet: Address, stake: nat, k: nat,
                               reserve: int, journal: seq<Entry>) {
    && |rest| <= k && Inv(x) && AllSlash(x, rest, wallet)
    && ProviderAt(x, wallet).stakedAmount == Halved(stake, k - |rest|)
    && x.balance == reserve + Halved(stake, k - |rest|)
    && x.journal + SlashEntries(x, rest, wallet, stake, k - |rest|) == journal
  }

  lemma SlashedOneMore(x: State, rest: seq<Tx>, wallet: Address, stake: nat, k: nat, reserve: int, journal: seq<Entry>)
    requires rest != [] && SlashedSoFar(x, rest, wallet, stake, k, reserve, journal)
    ensures SlashedSoFar(After(x, Exec(x, rest[0])), rest[1..], wallet, stake, k, reserve, journal)
  {
    var j := k - |rest|;
    assert k - |rest[1..]| == j + 1;
    var x1, e := FirstSlash(x, rest, wallet, stake, j);
    assert x1 == After(x, Exec(x, rest[0]));
    Associate(x.journal, e, SlashEntries(x1, rest[1..], wallet, stake, j + 1));
  }

  lemma Associate(before: seq<Entry>, e: Entry, after: seq<Entry>)
    ensures before + [e] + after == before + ([e] + after)
  {
  }

  lemma SlashesFrom(s: State, txs: seq<Tx>, wallet: Address, stake: nat)
    requires Inv(s) && AllSlash(s, txs, wallet) && ProviderAt(s, wallet).stakedAmount == stake
    ensures SlashedSoFar(Run(s, txs), [], wallet, stake, |txs|, s.balance - stake,
                         s.journal + SlashEntries(s, txs, wallet, stake, 0))
  {
    var reserve, journal := s.balance - stake, s.journal + SlashEntries(s, txs, wallet, stake, 0);
    var inv := (x: State, rest: seq<Tx>) => SlashedSoFar(x, rest, wallet, stake, |txs|, reserve, journal);
    forall x: State, rest: seq<Tx> | rest != [] && inv(x, rest) ensures inv(After(x, Exec(x, rest[0])), rest[1..]) {
      SlashedOneMore(x, rest, wallet, stake, |txs|, reserve, journal);
    }
    RunKeeps(inv, s, txs);
  }

  lemma ActiveHasMinimum(s: State, a: Address)
    requires Orderly(s)
    ensures ProviderAt(s, a).active ==> ProviderAt(s, a).stakedAmount >= MIN_STAKE
  {
  }

  /** k consecutive slashes of a stake S leave ceil(S / 2^k), send the rest to the owner in halves, never
      take a positive stake to zero, and deactivate the provider once what is left is below the minimum,
      whatever the owner's account does while it is paid. */
  lemma SlashesLeaveCeiling(s: State, txs: seq<Tx>, wallet: Address)
    requires Inv(s) && AllSlash(s, txs, wallet)
    ensures var stake := ProviderAt(s, wallet).stakedAmount; var p := ProviderAt(Run(s, txs), wallet);
            && p.stakedAmount == CeilDiv(stake, Pow2(|txs|))
            && s.balance - Run(s, txs).balance == stake - p.stakedAmount
            && (stake > 0 ==> p.stakedAmount > 0)
            && (p.stakedAmount < MIN_STAKE ==> !p.active)
            && Run(s, txs).journal == s.journal + SlashEntries(s, txs, wallet, stake, 0)
  {
    var stake := ProviderAt(s, wallet).stakedAmount;
    SlashesFrom(s, txs, wallet, stake);
    HalvedIsCeiling(stake, |txs|);
    InvInEveryRun(s, txs);
    ActiveHasMinimum(Run(s, txs), wallet);
  }

  // ----- Enumeration -----

  lemma {:induction false} EnumeratesListed(s: State, list: seq<Address>, i: nat)
    requires Orderly(s) && (forall b :: b in list ==> b in s.providers) && i < |ActiveProviders(s, list)|
    ensures var p := ActiveProviders(s, list)[i];
            p.wallet in list && p == s.providers[p.wallet] && Listed(p)
    decreases |list|
  {
    var init := list[..|list| - 1];
    assert list[|list| - 1] in list && forall b :: b in init ==> b in list;
    if i < |ActiveProviders(s, init)| {
      EnumeratesListed(s, init, i);
    }
  }

  /** The enumeration keeps registration order: an earlier entry was registered earlier. */
  lemma {:induction false} EnumeratesInOrder(s: State, list: seq<Address>, i: nat, j: nat) returns (p: nat, q: nat)
    requires Orderly(s) && (forall b :: b in list ==> b in s.providers) && i < j < |ActiveProviders(s, list)|
    ensures p < q < |list|
    ensures ActiveProviders(s, list)[i].wallet == list[p] && ActiveProviders(s, list)[j].wallet == list[q]
    decreases |list|
  {
    var init, last := list[..|list| - 1], list[|list| - 1];
    assert last in list && forall b :: b in init ==> b in list;
    if j < |ActiveProviders(s, init)| {
      p, q := EnumeratesInOrder(s, init, i, j);
    } else {
      EnumeratesListed(s, init, i);
      var w := ActiveProviders(s, init)[i].wallet;
      p :| 0 <= p < |init| && init[p] == w;
      q := |list| - 1;
    }
  }

  ghost predicate Lists(active: seq<Provider>, a: Address) {
    exists i :: 0 <= i < |active| && active[i].wallet == a
  }

  /** A provider is in the enumeration of active ones exactly when it is registered and active. */
  lemma {:induction false} EnumeratesActive(s: State, list: seq<Address>, a: Address)
    requires Orderly(s) && (forall b :: b in list ==> b in s.providers)
    ensures Lists(ActiveProviders(s, list), a) <==> a in list && s.providers[a].active
    decreases |list|
  {
    if list != [] {
      var init, last := list[..|list| - 1], list[|list| - 1];
      assert forall b :: b in list <==> b in init || b == last;
      EnumeratesActive(s, init, a);
      var before, out := ActiveProviders(s, init), ActiveProviders(s, list);
      if Listed(s.providers[last]) {
        assert out == before + [s.providers[last]];
        if last == a {
          assert out[|out| - 1].wallet == a;
        }
        if i :| 0 <= i < |before| && before[i].wallet == a {
          assert out[i].wallet == a;
        }
      } else {
        assert last in s.providers && !s.providers[last].active;
        assert out == before;
      }
    }
  }
}
