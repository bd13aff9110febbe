/** The auction and the escrow together: closing an auction starts a streaming session. */
module Market {
  import opened Chain
  import A = AuctionModel
  import AR = AuctionRuns
  import AO = AuctionOutcomes
  import AC = AuctionCalls
  import E = EscrowModel
  import ER = EscrowRuns
  import B = SessionBooks
  import S = Streaming
  import SS = StreamingSchedule
  import RF = EscrowRefunds

  /** The session a close asks the escrow to start: the auction itself is its user. */
  function StartOf(e: A.Entry, auction: Account, provider: E.Callee): E.Tx
    requires e.Forwarded?
  {
    E.Tx(auction, e.amount, E.StartSession(e.id, e.provider, e.rate), provider, provider)
  }

  datatype Close = Failed | Closed(auction: A.State, escrow: E.State, award: A.Entry)

  /** `closeAuction` with the real escrow behind the external call. The winner is paid its part up front by
      the escrow and may then call back both contracts; if the escrow reverts, so does the close. */
  function CloseWithEscrow(a: A.State, e: E.State, auction: Account, sender: Account, id: Id,
                           provider: E.Callee, calls: seq<A.Tx>, now: nat): Close
  {
    var p := A.BeginClose(A.Admit(a, 0, A.CloseAuction(id)), id, now);
    if !p.Call? then Failed
    else
      var award := p.s.journal[|p.s.journal| - 1];
      if !award.Forwarded? then Failed
      else
        var o := E.Exec(e, StartOf(award, auction, provider), now);
        match A.Exec(a, A.Tx(sender, 0, A.CloseAuction(id), A.Callee(o.Done?, calls)), now)
        case Reverted(_) => Failed
        case Done(a') => if o.Done? then Closed(a', o.s, award) else Failed
  }

  /** The rate per second never asks for more than the price per hour, or one wei a second. */
  lemma RateUnderPrice(price: nat, ceiling: nat)
    requires price <= ceiling
    ensures 1 <= A.RateOf(price) && 3600 * A.RateOf(price) <= Max(ceiling, 3600)
  {
  }

  /** What a close awards: the fallback node without bids, the least bid otherwise, at a rate under the
      ceiling, with all the money posted since the last payout. */
  lemma AwardOf(a: A.State, e: E.State, auction: Account, sender: Account, id: Id,
                provider: E.Callee, calls: seq<A.Tx>, now: nat)
    requires AR.Inv(a, now) && !a.locked
    requires CloseWithEscrow(a, e, auction, sender, id, provider, calls, now).Closed?
    ensures var c := CloseWithEscrow(a, e, auction, sender, id, provider, calls, now);
            var bs := A.BidsAt(a, id);
            && c.award.Forwarded? && c.award.id == id && c.award.amount == AR.PoolTotal(a.journal)
            && 3600 * c.award.rate <= Max(A.JobAt(a, id).maxPricePerHour, 3600)
            && c.award.provider == (if bs == [] then a.fallbackProvider else bs[A.WinnerAt(bs)].provider)
            && E.Exec(e, StartOf(c.award, auction, provider), now).Done?
            && E.Exec(e, StartOf(c.award, auction, provider), now).s == c.escrow
  {
    var bs := A.BidsAt(a, id);
    assert AR.BidsLawful(a, now, id);
    RateUnderPrice(if bs == [] then A.JobAt(a, id).maxPricePerHour else bs[A.WinnerAt(bs)].pricePerHour,
                   A.JobAt(a, id).maxPricePerHour);
  }

  lemma MoreTime(rate: nat, less: nat, more: nat)
    requires less <= more
    ensures less * rate <= more * rate
  {
  }

  lemma ScaledCeiling(gross: nat, rate: nat, time: nat, ceiling: nat)
    requires gross <= time * rate && 3600 * rate <= ceiling
    ensures 3600 * gross <= ceiling * time
  {
    assert time * (3600 * rate) <= time * ceiling;
    assert 3600 * (time * rate) == time * (3600 * rate);
  }

  /** `b` never streamed more than `ceiling` per hour for the time between `start` and `t`. */
  ghost predicate UnderCeiling(b: B.Books, ceiling: nat, start: nat, t: nat) {
    start <= t && 3600 * b.Gross() <= ceiling * (t - start)
  }

  lemma DrippedUnderCeiling(x: E.Session, b: B.Books, x': E.Session, b': B.Books, t: nat, ceiling: nat)
    requires S.Dripped(x, b, x', b', t) && b.Gross() == 0 && x.lastPaidAt <= t && 3600 * x.ratePerSecond <= ceiling
    ensures UnderCeiling(b', ceiling, x.lastPaidAt, t)
  {
    MoreTime(x.ratePerSecond, x'.lastPaidAt - x.lastPaidAt, t - x.lastPaidAt);
    ScaledCeiling(b'.Gross(), x.ratePerSecond, t - x.lastPaidAt, ceiling);
  }

  lemma DripsUnderCeiling(s: E.State, s': E.State, id: Id, t: nat, ceiling: nat)
    requires S.AllDrip(s, s', t) && E.SessionAt(s, id).user != ZERO && E.SessionAt(s, id).lastPaidAt <= t
    requires B.BooksOf(s.journal, id).Gross() == 0 && 3600 * E.SessionAt(s, id).ratePerSecond <= ceiling
    ensures UnderCeiling(B.BooksOf(s'.journal, id), ceiling, E.SessionAt(s, id).lastPaidAt, t)
  {
    assert S.Drips(s, s', t, id);
    DrippedUnderCeiling(E.SessionAt(s, id), B.BooksOf(s.journal, id),
                        E.SessionAt(s', id), B.BooksOf(s'.journal, id), t, ceiling);
  }

  /** The price ceiling holds end to end. Through the winner's choice, the division by 3600 with its floor of
      one, and the drip, a session started by `closeAuction` never streams more than the user's ceiling for
      the time elapsed, or 3600 wei an hour if the ceiling is below that, whatever runs on the escrow. */
  lemma PriceCeiling(a: A.State, e: E.State, auction: Account, sender: Account, id: Id,
                     provider: E.Callee, calls: seq<A.Tx>, now: nat, txs: seq<E.Timed>, t: nat)
    requires AR.Inv(a, now) && !a.locked && ER.Inv(e)
    requires CloseWithEscrow(a, e, auction, sender, id, provider, calls, now).Closed?
    requires ER.By(txs, t) && now <= t
    ensures var e' := CloseWithEscrow(a, e, auction, sender, id, provider, calls, now).escrow;
            UnderCeiling(B.BooksOf(E.Run(e', txs).journal, id), Max(A.JobAt(a, id).maxPricePerHour, 3600), now, t)
  {
    var c := CloseWithEscrow(a, e, auction, sender, id, provider, calls, now);
    AwardOf(a, e, auction, sender, id, provider, calls, now);
    SS.StartedSession(e, StartOf(c.award, auction, provider), now);
    ER.ExecKeeps(e, StartOf(c.award, auction, provider), now);
    ER.RunKeeps(c.escrow, txs, t);
    DripsUnderCeiling(c.escrow, E.Run(c.escrow, txs), id, t, Max(A.JobAt(a, id).maxPricePerHour, 3600));
  }

  /** A reachable, unlocked auction after a post and any run. */
  lemma AfterPost(a: A.State, post: A.Tx, start: nat, later: seq<A.Timed>, now: nat)
    requires AR.Inv(a, start) && post.op.PostJob? && A.Exec(a, post, start).Done?
    requires AR.Clocked(later, start) && AR.EndOf(later, start) <= now
    ensures var a' := A.Run(A.Exec(a, post, start).s, later);
            && AR.Inv(a', now) && !a'.locked
            && A.JobAt(a', post.op.id).maxPricePerHour == post.op.maxPricePerHour
  {
    var a1 := A.Exec(a, post, start).s;
    AC.PostSucceedsIff(a, post, start);
    AR.ExecKeeps(a, post, start);
    AR.InvInEveryRun(a1, later, start);
    AR.RunKeepsLock(a1, later, start);
    AR.LaterAllBids(A.Run(a1, later), AR.EndOf(later, start), now);
    AC.TermsStand(a, post, start, later);
  }

  /** From the user's own post to the last wei: whoever bids and whatever runs on the auction until the close and
      on the escrow after it, the session never streams more than the price the post named. */
  lemma PriceCeilingFromPost(a: A.State, post: A.Tx, start: nat, later: seq<A.Timed>, e: E.State, auction: Account,
                             sender: Account, provider: E.Callee, calls: seq<A.Tx>, now: nat, txs: seq<E.Timed>, t: nat)
    requires AR.Inv(a, start) && post.op.PostJob? && A.Exec(a, post, start).Done?
    requires AR.Clocked(later, start) && AR.EndOf(later, start) <= now && ER.Inv(e)
    requires CloseWithEscrow(A.Run(A.Exec(a, post, start).s, later), e, auction, sender, post.op.id, provider,
                             calls, now).Closed?
    requires ER.By(txs, t) && now <= t
    ensures var c := CloseWithEscrow(A.Run(A.Exec(a, post, start).s, later), e, auction, sender, post.op.id, provider,
                                     calls, now);
            UnderCeiling(B.BooksOf(E.Run(c.escrow, txs).journal, post.op.id),
                         Max(post.op.maxPricePerHour, 3600), now, t)
  {
    var a' := A.Run(A.Exec(a, post, start).s, later);
    AfterPost(a, post, start, later, now);
    PriceCeiling(a', e, auction, sender, post.op.id, provider, calls, now, txs, t);
  }

  /** No wei is lost between the contracts: what leaves the auction is the deposit of the session. */
  lemma DepositForwarded(a: A.State, e: E.State, auction: Account, sender: Account, id: Id,
                         provider: E.Callee, calls: seq<A.Tx>, now: nat)
    requires AR.Inv(a, now) && !a.locked && ER.Inv(e)
    requires CloseWithEscrow(a, e, auction, sender, id, provider, calls, now).Closed?
    ensures var c := CloseWithEscrow(a, e, auction, sender, id, provider, calls, now);
            && c.auction.balance == 0
            && B.BooksOf(c.escrow.journal, id).deposit == a.balance
            && E.SessionAt(c.escrow, id).user == auction
            && A.JobAt(c.auction, id).status == A.Awarded
  {
    var c := CloseWithEscrow(a, e, auction, sender, id, provider, calls, now);
    AwardOf(a, e, auction, sender, id, provider, calls, now);
    var tx := StartOf(c.award, auction, provider);
    SS.StartedSession(e, tx, now);
    var p := A.BeginClose(A.Admit(a, 0, A.CloseAuction(id)), id, now);
    AR.HandoverMovesNothing(p.s, calls, now);
  }

  /** The session of a close is the winner's: the least bid's provider at its price a second, or the fallback at the
      ceiling, paid out of all the money, of which a fifth is gone and four fifths stream from now on. */
  lemma SessionIsWinners(a: A.State, e: E.State, auction: Account, sender: Account, id: Id,
                         provider: E.Callee, calls: seq<A.Tx>, now: nat, k: nat)
    requires AR.Inv(a, now) && !a.locked && ER.Inv(e)
    requires CloseWithEscrow(a, e, auction, sender, id, provider, calls, now).Closed?
    requires A.BidsAt(a, id) != [] ==> AR.Least(A.BidsAt(a, id), k)
    ensures var bs := A.BidsAt(a, id);
            var price := if bs == [] then A.JobAt(a, id).maxPricePerHour else bs[k].pricePerHour;
            E.SessionAt(CloseWithEscrow(a, e, auction, sender, id, provider, calls, now).escrow, id)
            == E.Session(auction, if bs == [] then a.fallbackProvider else bs[k].provider, Max(price / 3600, 1),
                         a.balance - a.balance / 5, now, true)
  {
    if A.BidsAt(a, id) != [] {
      AR.WinnerIsLeast(A.BidsAt(a, id), k);
    }
    var c := CloseWithEscrow(a, e, auction, sender, id, provider, calls, now);
    AwardOf(a, e, auction, sender, id, provider, calls, now);
    SS.StartedSession(e, StartOf(c.award, auction, provider), now);
  }

  // ----- When a close goes through, and what the session can expect -----

  /** What a close of an open job past its window asks for, if there is someone to award it to. */
  lemma AwardPosted(a: A.State, id: Id, now: nat)
    requires A.BeginClose(A.Admit(a, 0, A.CloseAuction(id)), id, now).Call?
    ensures var p := A.BeginClose(A.Admit(a, 0, A.CloseAuction(id)), id, now);
            && p.s.journal != []
            && var award := p.s.journal[|p.s.journal| - 1];
               award.Forwarded? && award.id == id && award.amount == a.balance && award.rate > 0
  {
  }

  /** With the real escrow behind it, a close goes through exactly for an open job past its window with a bid
      or a fallback, with money in the auction, as long as nobody holds a session under the job's id, and if the
      provider takes its part up front. */
  lemma CloseGoesThroughIff(a: A.State, e: E.State, auction: Account, sender: Account, id: Id,
                            provider: E.Callee, calls: seq<A.Tx>, now: nat)
    requires !a.locked && ER.Inv(e)
    ensures var j := A.JobAt(a, id);
            CloseWithEscrow(a, e, auction, sender, id, provider, calls, now).Closed? <==>
              && j.user != ZERO && j.status == A.Open && now > j.depositedAt + A.BID_WINDOW
              && (A.BidsAt(a, id) == [] ==> a.fallbackProvider != ZERO)
              && a.balance > 0 && E.SessionAt(e, id).user == ZERO && provider.accepts
  {
    var p := A.BeginClose(A.Admit(a, 0, A.CloseAuction(id)), id, now);
    if p.Call? {
      AwardPosted(a, id, now);
      var award := p.s.journal[|p.s.journal| - 1];
      var start := StartOf(award, auction, provider);
      RF.StartSucceedsIff(e, start, now);
      AO.CloseSucceedsIff(a, A.Tx(sender, 0, A.CloseAuction(id), A.Callee(E.Exec(e, start, now).Done?, calls)), now);
    }
  }

  /** A session under a job's id, whoever started it, keeps the job from being closed in every later run. */
  lemma TakenIdBlocksClose(e: E.State, txs: seq<E.Timed>, a: A.State, auction: Account, sender: Account, id: Id,
                           provider: E.Callee, calls: seq<A.Tx>, now: nat)
    requires ER.Inv(e) && E.SessionAt(e, id).user != ZERO && !a.locked
    ensures CloseWithEscrow(a, E.Run(e, txs), auction, sender, id, provider, calls, now) == Failed
  {
    RF.SessionStaysTaken(e, txs, id);
    CloseGoesThroughIff(a, E.Run(e, txs), auction, sender, id, provider, calls, now);
  }

  /** The session of a close, right after it. */
  lemma FreshSession(a: A.State, e: E.State, auction: Account, sender: Account, id: Id,
                     provider: E.Callee, calls: seq<A.Tx>, now: nat)
    requires AR.Inv(a, now) && !a.locked && ER.Inv(e)
    requires CloseWithEscrow(a, e, auction, sender, id, provider, calls, now).Closed?
    ensures var c := CloseWithEscrow(a, e, auction, sender, id, provider, calls, now);
            && ER.Inv(c.escrow) && E.SessionAt(c.escrow, id).user == auction
            && B.BooksOf(c.escrow.journal, id).refund == 0 && B.BooksOf(c.escrow.journal, id).deposit == a.balance
  {
    var c := CloseWithEscrow(a, e, auction, sender, id, provider, calls, now);
    AwardOf(a, e, auction, sender, id, provider, calls, now);
    SS.StartedSession(e, StartOf(c.award, auction, provider), now);
    ER.ExecKeeps(e, StartOf(c.award, auction, provider), now);
  }

  lemma DepositStands(s: E.State, txs: seq<E.Timed>, id: Id)
    requires ER.Inv(s) && E.SessionAt(s, id).user != ZERO
    ensures B.BooksOf(E.Run(s, txs).journal, id).deposit == B.BooksOf(s.journal, id).deposit
  {
    ER.RunKeepsInv(s, txs);
    assert S.Drips(s, E.Run(s, txs), ER.Latest(txs), id);
  }

  /** The auction has no function that stops a session and none that receives, so of the session of a close
      nothing ever comes back: in every run the deposit is the part up front, what was streamed and what is left. */
  lemma AuctionSessionNeverRefunds(a: A.State, e: E.State, auction: Account, sender: Account, id: Id,
                                   provider: E.Callee, calls: seq<A.Tx>, now: nat, txs: seq<E.Timed>)
    requires AR.Inv(a, now) && !a.locked && ER.Inv(e)
    requires CloseWithEscrow(a, e, auction, sender, id, provider, calls, now).Closed?
    requires forall i :: 0 <= i < |txs| ==> RF.Mute(txs[i].tx, auction, id)
    ensures var e' := E.Run(CloseWithEscrow(a, e, auction, sender, id, provider, calls, now).escrow, txs);
            var b := B.BooksOf(e'.journal, id);
            && b.refund == 0 && b.deposit == a.balance
            && a.balance == b.upfront + b.Gross() + E.SessionAt(e', id).remainingBalance
  {
    var c := CloseWithEscrow(a, e, auction, sender, id, provider, calls, now);
    FreshSession(a, e, auction, sender, id, provider, calls, now);
    RF.MuteUserGetsNothingBack(c.escrow, txs, id);
    DepositStands(c.escrow, txs, id);
    ER.SessionConserved(c.escrow, txs, id);
  }

  /** Nor can its provider be slashed through the escrow while money remains: the refund the auction refuses
      reverts the slash. */
  lemma AuctionSessionCannotBeSlashed(a: A.State, e: E.State, auction: Account, sender: Account, id: Id,
                                      provider: E.Callee, calls: seq<A.Tx>, now: nat, txs: seq<E.Timed>,
                                      slash: E.Tx, t: nat)
    requires AR.Inv(a, now) && !a.locked && ER.Inv(e)
    requires CloseWithEscrow(a, e, auction, sender, id, provider, calls, now).Closed?
    requires slash.op == E.SlashProvider(id) && RF.Mute(slash, auction, id)
    ensures var e' := E.Run(CloseWithEscrow(a, e, auction, sender, id, provider, calls, now).escrow, txs);
            E.SessionAt(e', id).remainingBalance > 0 ==> E.Exec(e', slash, t).Reverted?
  {
    var c := CloseWithEscrow(a, e, auction, sender, id, provider, calls, now);
    FreshSession(a, e, auction, sender, id, provider, calls, now);
    RF.SessionStaysTaken(c.escrow, txs, id);
    if E.SessionAt(E.Run(c.escrow, txs), id).remainingBalance > 0 {
      RF.RefusedSlashReverts(E.Run(c.escrow, txs), slash, t, id);
    }
  }
}
