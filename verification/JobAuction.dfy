/** The auction contract: its storage and its functions. */
module JobAuctionContract {
  import opened Chain
  import opened AuctionModel
  import RegistryContract = ProviderRegistryContract
  import Registry = RegistryModel

  datatype Receipt = Success | Failure(error: Error)

  ghost predicate Matches(o: Outcome, before: State, r: Receipt, after: State) {
    match o
    case Done(s) => r == Success && after == s
    case Reverted(error) => r == Failure(error) && after == before
  }

  class JobAuction {
    var balance: nat
    var owner: Address
    var fallbackProvider: Address
    var jobs: map<Id, Job>
    var bids: map<Id, seq<Bid>>
    var hasBid: map<Id, set<Address>>
    var locked: bool
    var journal: seq<Entry>

    function Snapshot(): State
      reads this
    {
      State(balance, owner, fallbackProvider, jobs, bids, hasBid, locked, journal)
    }

    constructor (initialOwner: Account, fallbackNode: Address)
      ensures Snapshot() == Init(initialOwner, fallbackNode)
    {
      balance, locked, owner, fallbackProvider := 0, false, initialOwner, fallbackNode;
      jobs, bids, hasBid, journal := map[], map[], map[], [];
    }

    method Revert(saved: State, error: Error) returns (r: Receipt)
      modifies this
      ensures Snapshot() == saved && r == Failure(error)
    {
      balance, owner, fallbackProvider, jobs := saved.balance, saved.owner, saved.fallbackProvider, saved.jobs;
      bids, hasBid, locked, journal := saved.bids, saved.hasBid, saved.locked, saved.journal;
      r := Failure(error);
    }

    method Open(msg: Tx) returns (r: Receipt)
      modifies this
      ensures match Enter(old(Snapshot()), msg.value, msg.op)
              case Shut(error) => r == Failure(error) && Snapshot() == old(Snapshot())
              case Pass => r == Success && Snapshot() == Admit(old(Snapshot()), msg.value, msg.op)
    {
      if msg.value > 0 && !msg.op.PostJob? { return Failure(NotPayable); }
      if Guarded(msg.op) {
        if locked { return Failure(ReentrantCall); }
        locked := true;
      }
      balance := balance + msg.value;
      return Success;
    }

    /** An external call that carries the whole balance. */
    method CallOut(e: Entry, callee: Callee, now: nat) returns (ok: bool)
      modifies this
      ensures ok == callee.accepts
      ensures ok ==>
                Snapshot() == Handover(old(Snapshot()).(balance := 0, journal := old(journal) + [e]), callee.calls, now)
      decreases callee, 0
    {
      balance := 0;
      journal := journal + [e];
      var i := 0;
      ghost var s0 := Snapshot();
      while i < |callee.calls|
        invariant 0 <= i <= |callee.calls|
        invariant Handover(Snapshot(), callee.calls[i..], now) == Handover(s0, callee.calls, now)
      {
        ghost var before := Snapshot();
        assert callee.calls[i..][0] == callee.calls[i] && callee.calls[i..][1..] == callee.calls[i + 1..];
        var _ := Execute(callee.calls[i], now);
        assert Snapshot() == After(before, Exec(before, callee.calls[i], now));
        i := i + 1;
      }
      return callee.accepts;
    }

    method PostJob(msg: Tx, id: Id, maxPricePerHour: nat, ramMb: nat, cpuCores: nat, durationSeconds: nat, now: nat)
      returns (r: Receipt)
      requires msg.op == Op.PostJob(id, maxPricePerHour, ramMb, cpuCores, durationSeconds)
      modifies this
      ensures Matches(Exec(old(Snapshot()), msg, now), old(Snapshot()), r, Snapshot())
    {
      var saved := Snapshot();
      r := Open(msg);
      if r.Failure? { return; }
      if msg.value == 0 { r := Revert(saved, ZeroDeposit); return; }
      if durationSeconds == 0 { r := Revert(saved, ZeroDuration); return; }
      if JobAt(Snapshot(), id).user != ZERO { r := Revert(saved, JobAlreadyExists); return; }
      jobs := jobs[id := Job(msg.sender, now, maxPricePerHour, ramMb, cpuCores, durationSeconds,
                             JobStatus.Open, ZERO, 0)];
      journal := journal + [Posted(id, msg.value)];
      locked := saved.locked;
    }

    method CancelJob(msg: Tx, id: Id, now: nat) returns (r: Receipt)
      requires msg.op == Op.CancelJob(id)
      modifies this
      ensures Matches(Exec(old(Snapshot()), msg, now), old(Snapshot()), r, Snapshot())
      decreases msg, 1
    {
      var saved := Snapshot();
      r := Open(msg);
      if r.Failure? { return; }
      var j := JobAt(Snapshot(), id);
      if j.user == ZERO { r := Revert(saved, JobNotFound); return; }
      if j.status != JobStatus.Open { r := Revert(saved, WrongStatus); return; }
      if msg.sender != j.user { r := Revert(saved, NotJobOwner); return; }
      var windowClosed := now > j.depositedAt + BID_WINDOW;
      if !windowClosed && |BidsAt(Snapshot(), id)| > 0 { r := Revert(saved, BidWindowOpen); return; }
      jobs := jobs[id := j.(status := Cancelled)];
      var refund := balance;
      var ok := CallOut(Refunded(id, j.user, refund), msg.callee, now);
      if !ok { r := Revert(saved, CallFailed); return; }
      locked := saved.locked;
    }

    method SubmitBid(msg: Tx, id: Id, price: nat, listed: seq<Registry.Provider>, now: nat) returns (r: Receipt)
      requires msg.op == Op.SubmitBid(id, price, listed)
      modifies this
      ensures Matches(Exec(old(Snapshot()), msg, now), old(Snapshot()), r, Snapshot())
    {
      var saved := Snapshot();
      r := Open(msg);
      if r.Failure? { return; }
      var j := JobAt(Snapshot(), id);
      if j.user == ZERO { r := Revert(saved, JobNotFound); return; }
      if j.status != JobStatus.Open { r := Revert(saved, WrongStatus); return; }
      if now > j.depositedAt + BID_WINDOW { r := Revert(saved, BidWindowClosed); return; }
      if msg.sender in BiddersAt(Snapshot(), id) { r := Revert(saved, DuplicateBid); return; }
      if price > j.maxPricePerHour { r := Revert(saved, BidAboveCeiling); return; }
      if !RegistryContract.AllDecode(listed) { r := Revert(saved, UndecodableListing); return; }
      var staked := RegistryContract.HasSufficientStake(listed, msg.sender);
      if !staked { r := Revert(saved, InsufficientStake); return; }
      hasBid := hasBid[id := BiddersAt(Snapshot(), id) + {msg.sender}];
      bids := bids[id := BidsAt(Snapshot(), id) + [Bid(msg.sender, price, now)]];
    }

    /** The loop of `closeAuction`. */
    method PickWinner(bs: seq<Bid>) returns (winner: Bid)
      requires bs != []
      ensures winner == bs[WinnerAt(bs)]
    {
      winner := bs[0];
      assert bs[..1] == [bs[0]];
      for i := 1 to |bs|
        invariant winner == bs[..i][WinnerAt(bs[..i])]
      {
        assert bs[..i + 1][..i] == bs[..i];
        var b := bs[i];
        if b.pricePerHour < winner.pricePerHour
           || (b.pricePerHour == winner.pricePerHour && b.submittedAt < winner.submittedAt) {
          winner := b;
        }
      }
      assert bs[..|bs|] == bs;
    }

    method CloseAuction(msg: Tx, id: Id, now: nat) returns (r: Receipt)
      requires msg.op == Op.CloseAuction(id)
      modifies this
      ensures Matches(Exec(old(Snapshot()), msg, now), old(Snapshot()), r, Snapshot())
      decreases msg, 1
    {
      var saved := Snapshot();
      r := Open(msg);
      if r.Failure? { return; }
      var j := JobAt(Snapshot(), id);
      if j.user == ZERO { r := Revert(saved, JobNotFound); return; }
      if j.status != JobStatus.Open { r := Revert(saved, WrongStatus); return; }
      if now <= j.depositedAt + BID_WINDOW { r := Revert(saved, BidWindowOpen); return; }
      var deposit := balance;
      var bs := BidsAt(Snapshot(), id);
      var provider, price;
      if |bs| == 0 {
        if fallbackProvider == ZERO { r := Revert(saved, NoFallbackProvider); return; }
        provider, price := fallbackProvider, j.maxPricePerHour;
      } else {
        var winner := PickWinner(bs);
        provider, price := winner.provider, winner.pricePerHour;
      }
      var rate := price / 3600;
      if rate == 0 { rate := 1; }
      jobs := jobs[id := j.(status := Awarded, winningProvider := provider, winningRatePerSecond := rate)];
      var ok := CallOut(Forwarded(id, provider, deposit, rate), msg.callee, now);
      if !ok { r := Revert(saved, CallFailed); return; }
      locked := saved.locked;
    }

    method SetFallbackOrOwner(msg: Tx, now: nat) returns (r: Receipt)
      requires msg.op.SetFallbackProvider? || msg.op.TransferOwnership?
      modifies this
      ensures Matches(Exec(old(Snapshot()), msg, now), old(Snapshot()), r, Snapshot())
    {
      var saved := Snapshot();
      r := Open(msg);
      if r.Failure? { return; }
      if msg.sender != owner { r := Revert(saved, NotOwner); return; }
      if msg.op.SetFallbackProvider? {
        fallbackProvider := msg.op.fallbackProvider;
      } else {
        owner := msg.op.newOwner;
      }
    }

    method Execute(msg: Tx, now: nat) returns (r: Receipt)
      modifies this
      ensures Matches(Exec(old(Snapshot()), msg, now), old(Snapshot()), r, Snapshot())
      decreases msg, 2
    {
      match msg.op
      case PostJob(id, price, ram, cpu, duration) => r := PostJob(msg, id, price, ram, cpu, duration, now);
      case CancelJob(id) => r := CancelJob(msg, id, now);
      case SubmitBid(id, price, listed) => r := SubmitBid(msg, id, price, listed, now);
      case CloseAuction(id) => r := CloseAuction(msg, id, now);
      case SetFallbackProvider(_) => r := SetFallbackOrOwner(msg, now);
      case TransferOwnership(_) => r := SetFallbackOrOwner(msg, now);
    }

    /** `lowestBid`: the first of the cheapest bids, or nothing. */
    method LowestBid(id: Id) returns (provider: Address, price: nat)
      ensures var bs := BidsAt(Snapshot(), id);
              if bs == [] then provider == ZERO && price == 0
              else provider == bs[CheapestAt(bs)].provider && price == bs[CheapestAt(bs)].pricePerHour
    {
      var bs := BidsAt(Snapshot(), id);
      if |bs| == 0 { return ZERO, 0; }
      var best := bs[0];
      assert bs[..1] == [bs[0]];
      for i := 1 to |bs|
        invariant best == bs[..i][CheapestAt(bs[..i])]
      {
        assert bs[..i + 1][..i] == bs[..i];
        if bs[i].pricePerHour < best.pricePerHour {
          best := bs[i];
        }
      }
      assert bs[..|bs|] == bs;
      return best.provider, best.pricePerHour;
    }

    /** `isBidWindowOpen`. */
    method IsBidWindowOpen(id: Id, now: nat) returns (isOpen: bool)
      ensures isOpen == WindowOpen(Snapshot(), id, now)
    {
      var j := JobAt(Snapshot(), id);
      if j.user == ZERO { return false; }
      return j.status == JobStatus.Open && now <= j.depositedAt + BID_WINDOW;
    }
  }
}
