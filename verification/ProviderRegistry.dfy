/** The registry contract: its storage and its functions. */
module ProviderRegistryContract {
  import opened Chain
  import opened RegistryModel
  import RegistryRuns

  datatype Receipt = Success | Failure(error: Error)

  ghost predicate Matches(o: Outcome, before: State, r: Receipt, after: State) {
    match o
    case Done(s, _) => r == Success && after == s
    case Reverted(error, _) => r == Failure(error) && after == before
  }

  /** How many providers of the list are listed as active. */
  function ActiveCount(s: State, list: seq<Address>): nat {
    |ActiveProviders(s, list)|
  }

  lemma ActiveOne(s: State, list: seq<Address>, i: nat)
    requires i < |list|
    ensures ActiveProviders(s, list[..i + 1])
         == ActiveProviders(s, list[..i]) + if Listed(ProviderAt(s, list[i])) then [ProviderAt(s, list[i])] else []
  {
    assert list[..i + 1][..i] == list[..i];
  }

  lemma {:induction false} ActiveGrows(s: State, list: seq<Address>, i: nat)
    requires i <= |list|
    ensures |ActiveProviders(s, list[..i])| <= |ActiveProviders(s, list)|
    decreases |list| - i
  {
    if i < |list| {
      ActiveOne(s, list, i);
      ActiveGrows(s, list, i + 1);
    } else {
      assert list[..i] == list;
    }
  }

  class ProviderRegistry {
    var balance: nat
    var owner: Address
    var slashAuthority: Address
    var providers: map<Address, Provider>
    var providerList: seq<Address>
    var locked: bool
    var journal: seq<Entry>

    function Snapshot(): State
      reads this
    {
      State(balance, owner, slashAuthority, providers, providerList, locked, journal)
    }

    constructor (initialOwner: Account, authority: Address)
      ensures Snapshot() == Init(initialOwner, authority)
    {
      balance, locked, owner, slashAuthority := 0, false, initialOwner, authority;
      providers, providerList, journal := map[], [], [];
    }

    method Revert(saved: State, error: Error) returns (r: Receipt)
      modifies this
      ensures Snapshot() == saved && r == Failure(error)
    {
      balance, owner, slashAuthority := saved.balance, saved.owner, saved.slashAuthority;
      providers, providerList, locked, journal := saved.providers, saved.providerList, saved.locked, saved.journal;
      r := Failure(error);
    }

    method Open(msg: Tx) returns (r: Receipt)
      modifies this
      ensures match Enter(old(Snapshot()), msg.value, msg.op)
              case Shut(error) => r == Failure(error) && Snapshot() == old(Snapshot())
              case Open => r == Success && Snapshot() == Admit(old(Snapshot()), msg.value, msg.op)
    {
      if msg.value > 0 && !Payable(msg.op) { return Failure(NotPayable); }
      if Guarded(msg.op) {
        if locked { return Failure(ReentrantCall); }
        locked := true;
      }
      balance := balance + msg.value;
      return Success;
    }

    method CallBack(calls: seq<Tx>)
      modifies this
      ensures Snapshot() == Handover(old(Snapshot()), calls).s
      decreases calls, 0
    {
      var i := 0;
      while i < |calls|
        invariant 0 <= i <= |calls|
        invariant Handover(Snapshot(), calls[i..]).s == Handover(old(Snapshot()), calls).s
      {
        ghost var before := Snapshot();
        assert calls[i..][0] == calls[i] && calls[i..][1..] == calls[i + 1..];
        var _ := Execute(calls[i]);
        assert Snapshot() == After(before, Exec(before, calls[i]));
        i := i + 1;
      }
    }

    method Transfer(amount: nat, e: Entry, callee: Callee) returns (ok: bool)
      modifies this
      ensures ok <==> old(balance) >= amount && callee.accepts
      ensures ok ==> Snapshot() == Handover(Pay(old(Snapshot()), amount, e).s, callee.calls).s
      decreases callee, 0
    {
      if balance < amount { return false; }
      balance := balance - amount;
      journal := journal + [e];
      CallBack(callee.calls);
      return callee.accepts;
    }

    method Register(msg: Tx, endpoint: string, price: nat) returns (r: Receipt)
      requires msg.op == Op.Register(endpoint, price)
      modifies this
      ensures Matches(Exec(old(Snapshot()), msg), old(Snapshot()), r, Snapshot())
    {
      var saved := Snapshot();
      r := Open(msg);
      if r.Failure? { return; }
      if ProviderAt(Snapshot(), msg.sender).wallet != ZERO { r := Revert(saved, AlreadyRegistered); return; }
      if msg.value < MIN_STAKE { r := Revert(saved, InsufficientStake); return; }
      if |endpoint| == 0 { r := Revert(saved, EmptyEndpoint); return; }
      providers := providers[msg.sender := Provider(msg.sender, endpoint, price, msg.value, 0, 0, true)];
      providerList := providerList + [msg.sender];
      journal := journal + [StakeIn(msg.sender, msg.value)];
      locked := saved.locked;
    }

    method Update(msg: Tx, endpoint: string, price: nat) returns (r: Receipt)
      requires msg.op == Op.Update(endpoint, price)
      modifies this
      ensures Matches(Exec(old(Snapshot()), msg), old(Snapshot()), r, Snapshot())
    {
      var saved := Snapshot();
      r := Open(msg);
      if r.Failure? { return; }
      var p := ProviderAt(Snapshot(), msg.sender);
      if p.wallet == ZERO { r := Revert(saved, NotRegistered); return; }
      if |endpoint| == 0 { r := Revert(saved, EmptyEndpoint); return; }
      providers := providers[msg.sender := p.(endpoint := endpoint, pricePerHour := price)];
    }

    method Stake(msg: Tx) returns (r: Receipt)
      requires msg.op == Op.Stake
      modifies this
      ensures Matches(Exec(old(Snapshot()), msg), old(Snapshot()), r, Snapshot())
    {
      var saved := Snapshot();
      r := Open(msg);
      if r.Failure? { return; }
      var p := ProviderAt(Snapshot(), msg.sender);
      if p.wallet == ZERO { r := Revert(saved, NotRegistered); return; }
      if msg.value == 0 { r := Revert(saved, ZeroAmount); return; }
      providers := providers[msg.sender := p.(stakedAmount := p.stakedAmount + msg.value)];
      if !providers[msg.sender].active && providers[msg.sender].stakedAmount >= MIN_STAKE {
        providers := providers[msg.sender := providers[msg.sender].(active := true)];
        assert providers == saved.providers[msg.sender := providers[msg.sender]];
      }
      journal := journal + [StakeIn(msg.sender, msg.value)];
      locked := saved.locked;
    }

    method Unstake(msg: Tx, amount: nat) returns (r: Receipt)
      requires msg.op == Op.Unstake(amount)
      modifies this
      ensures Matches(Exec(old(Snapshot()), msg), old(Snapshot()), r, Snapshot())
      decreases msg, 1
    {
      var saved := Snapshot();
      r := Open(msg);
      if r.Failure? { return; }
      var p := ProviderAt(Snapshot(), msg.sender);
      if p.wallet == ZERO { r := Revert(saved, NotRegistered); return; }
      if amount == 0 { r := Revert(saved, ZeroAmount); return; }
      if amount > p.stakedAmount { r := Revert(saved, InsufficientStake); return; }
      var remaining := p.stakedAmount - amount;
      providers := providers[msg.sender := p.(stakedAmount := remaining)];
      if remaining < MIN_STAKE && providers[msg.sender].active {
        providers := providers[msg.sender := providers[msg.sender].(active := false)];
        assert providers == saved.providers[msg.sender := providers[msg.sender]];
      }
      var ok := Transfer(amount, StakeOut(msg.sender, msg.sender, amount), msg.callee);
      if !ok { r := Revert(saved, TransferFailed); return; }
      locked := saved.locked;
    }

    method Deactivate(msg: Tx) returns (r: Receipt)
      requires msg.op == Op.Deactivate
      modifies this
      ensures Matches(Exec(old(Snapshot()), msg), old(Snapshot()), r, Snapshot())
    {
      var saved := Snapshot();
      r := Open(msg);
      if r.Failure? { return; }
      var p := ProviderAt(Snapshot(), msg.sender);
      if p.wallet == ZERO { r := Revert(saved, NotRegistered); return; }
      providers := providers[msg.sender := p.(active := false)];
    }

    method Reactivate(msg: Tx) returns (r: Receipt)
      requires msg.op == Op.Reactivate
      modifies this
      ensures Matches(Exec(old(Snapshot()), msg), old(Snapshot()), r, Snapshot())
    {
      var saved := Snapshot();
      r := Open(msg);
      if r.Failure? { return; }
      var p := ProviderAt(Snapshot(), msg.sender);
      if p.wallet == ZERO { r := Revert(saved, NotRegistered); return; }
      if p.stakedAmount < MIN_STAKE { r := Revert(saved, InsufficientStake); return; }
      providers := providers[msg.sender := p.(active := true)];
    }

    method Slash(msg: Tx, wallet: Address) returns (r: Receipt)
      requires msg.op == Op.Slash(wallet)
      modifies this
      ensures Matches(Exec(old(Snapshot()), msg), old(Snapshot()), r, Snapshot())
      decreases msg, 1
    {
      var saved := Snapshot();
      r := Open(msg);
      if r.Failure? { return; }
      ghost var entered := Snapshot();
      if msg.sender != slashAuthority && msg.sender != owner { r := Revert(saved, Unauthorised); return; }
      var p := ProviderAt(Snapshot(), wallet);
      if p.wallet == ZERO { r := Revert(saved, NotRegistered); return; }
      var slashAmount := p.stakedAmount / 2;
      p := p.(stakedAmount := p.stakedAmount - slashAmount);
      p := p.(slashCount := p.slashCount + 1);
      if p.stakedAmount < MIN_STAKE {
        p := p.(active := false);
      }
      providers := providers[wallet := p];
      assert Begin(entered, msg.sender, msg.value, msg.op)
          == Pay(Snapshot(), slashAmount, SlashOut(wallet, owner, slashAmount));
      var ok := Transfer(slashAmount, SlashOut(wallet, owner, slashAmount), msg.callee);
      if !ok { r := Revert(saved, TransferFailed); return; }
      locked := saved.locked;
    }

    method RecordJobCompleted(msg: Tx, wallet: Address) returns (r: Receipt)
      requires msg.op == Op.RecordJobCompleted(wallet)
      modifies this
      ensures Matches(Exec(old(Snapshot()), msg), old(Snapshot()), r, Snapshot())
    {
      var saved := Snapshot();
      r := Open(msg);
      if r.Failure? { return; }
      if msg.sender != slashAuthority && msg.sender != owner { r := Revert(saved, Unauthorised); return; }
      var p := ProviderAt(Snapshot(), wallet);
      if p.wallet == ZERO { r := Revert(saved, NotRegistered); return; }
      providers := providers[wallet := p.(jobsCompleted := p.jobsCompleted + 1)];
    }

    method SetAuthority(msg: Tx) returns (r: Receipt)
      requires msg.op.SetSlashAuthority? || msg.op.TransferOwnership?
      modifies this
      ensures Matches(Exec(old(Snapshot()), msg), old(Snapshot()), r, Snapshot())
    {
      var saved := Snapshot();
      r := Open(msg);
      if r.Failure? { return; }
      if msg.sender != owner { r := Revert(saved, NotOwner); return; }
      if msg.op.SetSlashAuthority? {
        slashAuthority := msg.op.authority;
      } else {
        owner := msg.op.newOwner;
      }
    }

    method Execute(msg: Tx) returns (r: Receipt)
      modifies this
      ensures Matches(Exec(old(Snapshot()), msg), old(Snapshot()), r, Snapshot())
      decreases msg, 2
    {
      match msg.op
      case Register(endpoint, price) => r := Register(msg, endpoint, price);
      case Update(endpoint, price) => r := Update(msg, endpoint, price);
      case Stake => r := Stake(msg);
      case Unstake(amount) => r := Unstake(msg, amount);
      case Deactivate => r := Deactivate(msg);
      case Reactivate => r := Reactivate(msg);
      case Slash(wallet) => r := Slash(msg, wallet);
      case RecordJobCompleted(wallet) => r := RecordJobCompleted(msg, wallet);
      case SetSlashAuthority(_) => r := SetAuthority(msg);
      case TransferOwnership(_) => r := SetAuthority(msg);
    }

    /** `getActiveProviders`: a pass to count, then a pass to fill. The fill never runs past the array and
        fills all of it, with the active providers in registration order. */
    method GetActiveProviders() returns (active: array<Provider>)
      ensures fresh(active)
      ensures active[..] == ActiveProviders(Snapshot(), providerList)
    {
      var count := 0;
      for i := 0 to |providerList|
        invariant count == ActiveCount(Snapshot(), providerList[..i])
      {
        ActiveOne(Snapshot(), providerList, i);
        if Listed(ProviderAt(Snapshot(), providerList[i])) {
          count := count + 1;
        }
      }
      assert providerList[..|providerList|] == providerList;
      active := new Provider[count];
      var idx := 0;
      for i := 0 to |providerList|
        invariant idx == ActiveCount(Snapshot(), providerList[..i]) <= count == active.Length
        invariant active[..idx] == ActiveProviders(Snapshot(), providerList[..i])
      {
        ActiveOne(Snapshot(), providerList, i);
        ActiveGrows(Snapshot(), providerList, i + 1);
        if Listed(ProviderAt(Snapshot(), providerList[i])) {
          active[idx] := ProviderAt(Snapshot(), providerList[i]);
          idx := idx + 1;
        }
      }
      assert active[..idx] == active[..];
    }
  }

  /** The auction declares six fields where the registry returns seven. The first four line up; the flag is
      decoded from the word that holds the completed jobs, and the decoder reverts on a flag other than 0 and 1. */
  predicate Decodes(p: Provider) {
    p.jobsCompleted <= 1
  }

  predicate AllDecode(active: seq<Provider>) {
    forall i :: 0 <= i < |active| ==> Decodes(active[i])
  }

  /** The auction's stake check: the first listing under this wallet holds the minimum stake. */
  ghost predicate Passes(active: seq<Provider>, provider: Address) {
    exists i :: 0 <= i < |active| && active[i].wallet == provider
              && active[i].stakedAmount >= MIN_STAKE
              && (forall j :: 0 <= j < i ==> active[j].wallet != provider)
  }

  /** `_requireSufficientStake` of the auction, over what the registry returned. */
  method HasSufficientStake(active: seq<Provider>, provider: Address) returns (ok: bool)
    ensures ok <==> Passes(active, provider)
  {
    for i := 0 to |active|
      invariant forall j :: 0 <= j < i ==> active[j].wallet != provider
    {
      if active[i].wallet == provider {
        return active[i].stakedAmount >= MIN_STAKE;
      }
    }
    return false;
  }

  lemma FirstMatch(active: seq<Provider>, provider: Address) returns (k: nat)
    requires exists i :: 0 <= i < |active| && active[i].wallet == provider
    ensures k < |active| && active[k].wallet == provider
    ensures forall j :: 0 <= j < k ==> active[j].wallet != provider
  {
    k := 0;
    while active[k].wallet != provider
      invariant k < |active| && forall j :: 0 <= j < k ==> active[j].wallet != provider
      decreases |active| - k
    {
      k := k + 1;
    }
  }

  /** In every reachable registry the scan passes for exactly the registered active providers. */
  lemma ScanIsExact(s: State, provider: Address)
    requires RegistryRuns.Inv(s)
    ensures Passes(ActiveProviders(s, s.providerList), provider)
       <==> provider in s.providers && s.providers[provider].active
  {
    RegistryRuns.EnumeratesActive(s, s.providerList, provider);
    var out := ActiveProviders(s, s.providerList);
    if RegistryRuns.Lists(out, provider) {
      var k := FirstMatch(out, provider);
      RegistryRuns.EnumeratesListed(s, s.providerList, k);
    }
  }

  /** No active provider has completed a second job. */
  ghost predicate Fresh(s: State) {
    forall a :: a in s.providers && s.providers[a].active ==> s.providers[a].jobsCompleted <= 1
  }

  lemma DecodingIsExact(s: State)
    requires RegistryRuns.Inv(s)
    ensures AllDecode(ActiveProviders(s, s.providerList)) <==> Fresh(s)
  {
    var out := ActiveProviders(s, s.providerList);
    if AllDecode(out) {
      forall a | a in s.providers && s.providers[a].active ensures s.providers[a].jobsCompleted <= 1 {
        RegistryRuns.EnumeratesActive(s, s.providerList, a);
        var k :| 0 <= k < |out| && out[k].wallet == a;
        RegistryRuns.EnumeratesListed(s, s.providerList, k);
        assert Decodes(out[k]);
      }
    }
    if Fresh(s) {
      forall i | 0 <= i < |out| ensures Decodes(out[i]) {
        RegistryRuns.EnumeratesListed(s, s.providerList, i);
      }
    }
  }

  /** In every reachable registry the auction's check, decoding included, passes for exactly the registered
      active providers, as long as no active provider at all has completed a second job. */
  lemma StakeCheckIsExact(s: State, provider: Address)
    requires RegistryRuns.Inv(s)
    ensures var listed := ActiveProviders(s, s.providerList);
            AllDecode(listed) && Passes(listed, provider)
            <==> provider in s.providers && s.providers[provider].active && Fresh(s)
  {
    ScanIsExact(s, provider);
    DecodingIsExact(s);
  }

  lemma ThreeCalls(s: State, a: Tx, b: Tx, c: Tx)
    ensures var s1 := After(s, Exec(s, a)); var s2 := After(s1, Exec(s1, b));
            Run(s, [a, b, c]) == After(s2, Exec(s2, c))
  {
    var s1 := After(s, Exec(s, a));
    var s2 := After(s1, Exec(s1, b));
    assert [a, b, c][1..] == [b, c] && [b, c][1..] == [c] && [c][1..] == [];
    assert Run(s2, [c]) == After(s2, Exec(s2, c));
    assert Run(s1, [b, c]) == Run(s2, [c]);
  }

  /** A registry that gets there: one provider registers and has two jobs recorded. It stays active with the
      minimum stake, and from then on the check passes for nobody. */
  lemma SecondJobBlocksEveryone(owner: Account, node: Account, anyone: Address)
    ensures var idle := Callee(true, []);
            var s := Run(Init(owner, owner), [Tx(node, MIN_STAKE, Op.Register("e", 1), idle),
                                              Tx(owner, 0, Op.RecordJobCompleted(node), idle),
                                              Tx(owner, 0, Op.RecordJobCompleted(node), idle)]);
            && RegistryRuns.Inv(s) && node in s.providers
            && s.providers[node] == Provider(node, "e", 1, MIN_STAKE, 0, 2, true)
            && !(AllDecode(ActiveProviders(s, s.providerList)) && Passes(ActiveProviders(s, s.providerList), anyone))
  {
    var idle := Callee(true, []);
    var txs := [Tx(node, MIN_STAKE, Op.Register("e", 1), idle), Tx(owner, 0, Op.RecordJobCompleted(node), idle),
                Tx(owner, 0, Op.RecordJobCompleted(node), idle)];
    var s0 := Init(owner, owner);
    var s1 := After(s0, Exec(s0, txs[0]));
    assert s1.providers[node] == Provider(node, "e", 1, MIN_STAKE, 0, 0, true);
    var s2 := After(s1, Exec(s1, txs[1]));
    assert s2.providers[node] == Provider(node, "e", 1, MIN_STAKE, 0, 1, true);
    var s3 := After(s2, Exec(s2, txs[2]));
    assert s3.providers[node] == Provider(node, "e", 1, MIN_STAKE, 0, 2, true);
    ThreeCalls(s0, txs[0], txs[1], txs[2]);
    RegistryRuns.InitInv(owner, owner);
    RegistryRuns.InvInEveryRun(s0, txs);
    StakeCheckIsExact(s3, anyone);
  }
}
