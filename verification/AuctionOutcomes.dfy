/** Exactly when the auction's calls go through, and runs that show what follows from it. */
module AuctionOutcomes {
  import opened Chain
  import opened AuctionModel
  import opened AuctionRuns
  import Registry = RegistryModel
  import RegistryRuns
  import RegistryContract = ProviderRegistryContract

  // ----- Settling -----

  /** A cancel goes through exactly for the user of an open job, before the first bid or after the window. */
  lemma CancelSucceedsIff(s: State, tx: Tx, now: nat)
    requires !s.locked && tx.op.CancelJob?
    ensures var id := tx.op.id; var j := JobAt(s, id);
            Exec(s, tx, now).Done? <==>
              && tx.value == 0 && j.user == tx.sender && j.status == Open
              && (BidsAt(s, id) == [] || now > j.depositedAt + BID_WINDOW)
              && tx.callee.accepts
  {
  }

  /** A close goes through exactly for an open job past its window that has a bid or a fallback, if the escrow
      takes the session. */
  lemma CloseSucceedsIff(s: State, tx: Tx, now: nat)
    requires !s.locked && tx.op.CloseAuction?
    ensures var id := tx.op.id; var j := JobAt(s, id);
            Exec(s, tx, now).Done? <==>
              && tx.value == 0 && j.user != ZERO && j.status == Open && now > j.depositedAt + BID_WINDOW
              && (BidsAt(s, id) == [] ==> s.fallbackProvider != ZERO)
              && tx.callee.accepts
  {
  }

  /** After the window a user can still cancel a job that has bids, and the bidder gets nothing. */
  lemma CancelWithBids(owner: Account, alice: Account, node: Account)
    ensures var idle := Callee(true, []);
            var listed := [Registry.Provider(node, "e", 1, Registry.MIN_STAKE, 0, 0, true)];
            var s0 := Init(owner, ZERO);
            var s1 := After(s0, Exec(s0, Tx(alice, 5, PostJob(1, 100, 1, 1, 60), idle), 10));
            var s2 := After(s1, Exec(s1, Tx(node, 0, SubmitBid(1, 50, listed), idle), 12));
            var o := Exec(s2, Tx(alice, 0, CancelJob(1), idle), 41);
            && BidsAt(s2, 1) == [Bid(node, 50, 12)]
            && o.Done? && o.s.journal == [Posted(1, 5), Refunded(1, alice, 5)] && JobAt(o.s, 1).status == Cancelled
  {
    var listed := [Registry.Provider(node, "e", 1, Registry.MIN_STAKE, 0, 0, true)];
    assert RegistryContract.Decodes(listed[0]) && RegistryContract.Passes(listed, node);
  }

  // ----- The window view -----

  /** The view tells a provider whether its bid comes in time: a bid fails for want of the job, its status or
      its window exactly when the view is false, and never succeeds then. */
  lemma WindowViewDecidesBid(s: State, tx: Tx, now: nat)
    requires tx.op.SubmitBid?
    ensures var o := Exec(s, tx, now);
            && (o.Reverted? && (o.error == JobNotFound || o.error == WrongStatus || o.error == BidWindowClosed)
                <==> tx.value == 0 && !WindowOpen(s, tx.op.id, now))
            && (o.Done? ==> WindowOpen(s, tx.op.id, now))
  {
  }

  /** While the view is true nobody closes the auction. */
  lemma WindowViewBlocksClose(s: State, tx: Tx, now: nat)
    requires tx.op.CloseAuction? && WindowOpen(s, tx.op.id, now)
    ensures Exec(s, tx, now).Reverted?
  {
  }

  /** Once the view is false of a posted job, it stays false in every run. */
  lemma WindowNeverReopens(s: State, txs: seq<Timed>, from: nat, id: Id)
    requires JobAt(s, id).user != ZERO && !WindowOpen(s, id, from) && Clocked(txs, from)
    ensures !WindowOpen(Run(s, txs), id, EndOf(txs, from))
  {
    RunAges(s, txs, from, id);
    EndIsLater(txs, from);
  }

  // ----- Bids over a live registry -----

  /** With the registry's own answer, a bid goes through exactly while the window is open, once per provider,
      under the ceiling, from an active provider, and as long as no active provider at all has completed a
      second job: the auction cannot decode the answer otherwise. */
  lemma BidSucceedsIff(s: State, r: Registry.State, tx: Tx, now: nat)
    requires RegistryRuns.Inv(r) && tx.op.SubmitBid? && tx.op.listed == Registry.ActiveProviders(r, r.providerList)
    ensures var id := tx.op.id;
            Exec(s, tx, now).Done? <==>
              && tx.value == 0 && WindowOpen(s, id, now) && tx.sender !in BiddersAt(s, id)
              && tx.op.price <= JobAt(s, id).maxPricePerHour
              && tx.sender in r.providers && r.providers[tx.sender].active
              && RegistryContract.Fresh(r)
  {
    RegistryContract.StakeCheckIsExact(r, tx.sender);
  }

  // ----- With whose money -----

  /** A job whose deposit left with another settlement may be paid as much again, with the money of a third:
      the two jobs of 5 and 7 leave with the first cancel, and the second is refunded out of job 3. */
  lemma PaidWithOthersMoney(owner: Account, alice: Account, bob: Account, carol: Account)
    ensures var idle := Callee(true, []);
            var s0 := Init(owner, ZERO);
            var s1 := After(s0, Exec(s0, Tx(alice, 5, PostJob(1, 100, 1, 1, 60), idle), 10));
            var s2 := After(s1, Exec(s1, Tx(bob, 7, PostJob(2, 100, 1, 1, 60), idle), 11));
            var s3 := After(s2, Exec(s2, Tx(alice, 0, CancelJob(1), idle), 12));
            var s4 := After(s3, Exec(s3, Tx(carol, 7, PostJob(3, 100, 1, 1, 60), idle), 13));
            var s5 := After(s4, Exec(s4, Tx(bob, 0, CancelJob(2), idle), 14));
            s5.journal == [Posted(1, 5), Posted(2, 7), Refunded(1, alice, 12), Posted(3, 7), Refunded(2, bob, 7)]
            && s5.balance == 0 && JobAt(s5, 3).status == Open
  {
  }
}
