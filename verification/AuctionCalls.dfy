/** What each call of the auction objects to, and what it leaves. */
module AuctionCalls {
  import opened Chain
  import opened AuctionModel
  import opened AuctionRuns
  import opened AuctionOutcomes
  import RegistryContract = ProviderRegistryContract

  // ----- Objections -----

  datatype Verdict = Fine | Objects(error: Error)

  /** Whether a job is there and open. */
  function Standing(s: State, id: Id): Verdict {
    if JobAt(s, id).user == ZERO then Objects(JobNotFound)
    else if JobAt(s, id).status != Open then Objects(WrongStatus)
    else Fine
  }

  /** The first thing that stands in the way of a call, in the order in which the source asks. */
  function Objection(s: State, tx: Tx, now: nat): Verdict {
    if tx.value > 0 && !tx.op.PostJob? then Objects(NotPayable)
    else
      match tx.op
      case PostJob(id, _, _, _, durationSeconds) =>
        if s.locked then Objects(ReentrantCall)
        else if tx.value == 0 then Objects(ZeroDeposit)
        else if durationSeconds == 0 then Objects(ZeroDuration)
        else if JobAt(s, id).user != ZERO then Objects(JobAlreadyExists)
        else Fine
      case CancelJob(id) =>
        if s.locked then Objects(ReentrantCall)
        else if Standing(s, id) != Fine then Standing(s, id)
        else if tx.sender != JobAt(s, id).user then Objects(NotJobOwner)
        else if BidsAt(s, id) != [] && WindowOpen(s, id, now) then Objects(BidWindowOpen)
        else Fine
      case SubmitBid(id, price, listed) =>
        if Standing(s, id) != Fine then Standing(s, id)
        else if now > JobAt(s, id).depositedAt + 30 then Objects(BidWindowClosed)
        else if tx.sender in BiddersAt(s, id) then Objects(DuplicateBid)
        else if price > JobAt(s, id).maxPricePerHour then Objects(BidAboveCeiling)
        else if !RegistryContract.AllDecode(listed) then Objects(UndecodableListing)
        else if !StakeSuffices(listed, tx.sender) then Objects(InsufficientStake)
        else Fine
      case CloseAuction(id) =>
        if s.locked then Objects(ReentrantCall)
        else if Standing(s, id) != Fine then Standing(s, id)
        else if now <= JobAt(s, id).depositedAt + 30 then Objects(BidWindowOpen)
        else if BidsAt(s, id) == [] && s.fallbackProvider == ZERO then Objects(NoFallbackProvider)
        else Fine
      case _ => if tx.sender != s.owner then Objects(NotOwner) else Fine
  }

  /** In every state, in callbacks too: a call with an objection reverts with that error; one without goes through
      exactly if the party it pays, if any, takes the money. */
  lemma ObjectionDecides(s: State, tx: Tx, now: nat)
    ensures match Objection(s, tx, now)
            case Objects(error) => Exec(s, tx, now) == Reverted(error)
            case Fine =>
              && (Exec(s, tx, now).Done? <==> (tx.op.CancelJob? || tx.op.CloseAuction? ==> tx.callee.accepts))
              && (Exec(s, tx, now).Reverted? ==> Exec(s, tx, now).error == CallFailed)
  {
  }

  // ----- Effects -----

  /** A post goes through exactly with money, a duration and a free id. It stores the terms of the call, open and
      without a winner, under that id and nothing else. */
  lemma PostSucceedsIff(s: State, tx: Tx, now: nat)
    requires tx.op.PostJob?
    ensures var op := tx.op; var o := Exec(s, tx, now);
            && (o.Done? <==> !s.locked && tx.value > 0 && op.durationSeconds > 0 && JobAt(s, op.id).user == ZERO)
            && (o.Done? ==>
                  var j := JobAt(o.s, op.id);
                  && j.user == tx.sender && j.depositedAt == now && j.status == Open
                  && j.maxPricePerHour == op.maxPricePerHour && j.ramMb == op.ramMb && j.cpuCores == op.cpuCores
                  && j.durationSeconds == op.durationSeconds
                  && j.winningProvider == ZERO && j.winningRatePerSecond == 0
                  && o.s == s.(jobs := s.jobs[op.id := j], balance := s.balance + tx.value,
                               journal := s.journal + [Posted(op.id, tx.value)]))
  {
  }

  /** An accepted bid is appended with the price of the call and the time of the block, and marks its sender. */
  lemma BidAppends(s: State, tx: Tx, now: nat)
    requires tx.op.SubmitBid? && Exec(s, tx, now).Done?
    ensures var id := tx.op.id;
            Exec(s, tx, now).s == s.(bids := s.bids[id := BidsAt(s, id) + [Bid(tx.sender, tx.op.price, now)]],
                                     hasBid := s.hasBid[id := BiddersAt(s, id) + {tx.sender}])
  {
  }

  lemma SettersRewrite(s: State, tx: Tx, now: nat)
    requires (tx.op.SetFallbackProvider? || tx.op.TransferOwnership?) && Exec(s, tx, now).Done?
    ensures Exec(s, tx, now).s == if tx.op.SetFallbackProvider? then s.(fallbackProvider := tx.op.fallbackProvider)
                                  else s.(owner := tx.op.newOwner)
  {
  }

  /** A settlement writes its job and empties the balance; what the paid party does from there is a run of its own
      with the guard taken. */
  lemma SettlementHands(s: State, tx: Tx, now: nat)
    requires (tx.op.CancelJob? || tx.op.CloseAuction?) && Exec(s, tx, now).Done?
    ensures var s' := Exec(s, tx, now).s; var id := tx.op.id; var j := JobAt(s, id);
            exists h: State ::
              && s' == Run(h, Stamped(tx.callee.calls, now)).(locked := false)
              && h == s.(jobs := s.jobs[id := JobAt(h, id)], balance := 0, locked := true, journal := h.journal)
              && JobAt(h, id) == j.(status := if tx.op.CancelJob? then Cancelled else Awarded,
                                    winningProvider := JobAt(h, id).winningProvider,
                                    winningRatePerSecond := JobAt(h, id).winningRatePerSecond)
  {
    var h := Begin(Admit(s, tx.value, tx.op), tx.sender, tx.value, tx.op, now).s;
    HandoverIsRun(h, tx.callee.calls, now);
    assert h == s.(jobs := s.jobs[tx.op.id := JobAt(h, tx.op.id)], balance := 0, locked := true, journal := h.journal);
  }

  function Stamped(calls: seq<Tx>, now: nat): (txs: seq<Timed>)
    ensures |txs| == |calls|
  {
    if calls == [] then [] else [Timed(now, calls[0])] + Stamped(calls[1..], now)
  }

  lemma {:induction false} HandoverIsRun(s: State, calls: seq<Tx>, now: nat)
    ensures Handover(s, calls, now) == Run(s, Stamped(calls, now))
    decreases |calls|
  {
    if calls != [] {
      HandoverIsRun(After(s, Exec(s, calls[0], now)), calls[1..], now);
    }
  }

  // ----- From a post on -----

  /** Whatever runs after a post, the job keeps the terms of the call. */
  lemma TermsStand(s: State, post: Tx, start: nat, txs: seq<Timed>)
    requires post.op.PostJob? && Exec(s, post, start).Done? && Clocked(txs, start)
    ensures var op := post.op; var j := JobAt(Run(Exec(s, post, start).s, txs), op.id);
            j == Job(post.sender, start, op.maxPricePerHour, op.ramMb, op.cpuCores, op.durationSeconds,
                     j.status, j.winningProvider, j.winningRatePerSecond)
  {
    PostSucceedsIff(s, post, start);
    RunAges(Exec(s, post, start).s, txs, start, post.op.id);
  }

  /** And its window is the 30 seconds from the post, as long as it is open. */
  lemma WindowFromPost(s: State, post: Tx, start: nat, txs: seq<Timed>, now: nat)
    requires post.op.PostJob? && Exec(s, post, start).Done? && Clocked(txs, start)
    ensures var s' := Run(Exec(s, post, start).s, txs);
            WindowOpen(s', post.op.id, now) <==> JobAt(s', post.op.id).status == Open && now <= start + 30
  {
    TermsStand(s, post, start, txs);
  }
}
