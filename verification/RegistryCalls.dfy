/** What each call of the registry objects to, and what it leaves. */
module RegistryCalls {
  import opened Chain
  import opened RegistryModel
  import opened RegistryRuns

  // ----- Objections -----

  datatype Verdict = Fine | Objects(error: Error)

  predicate Registered(s: State, a: Address) {
    ProviderAt(s, a).wallet != ZERO
  }

  /** The first thing that stands in the way of a call, in the order in which the source asks. */
  function Objection(s: State, tx: Tx): Verdict {
    if tx.value > 0 && !tx.op.Register? && !tx.op.Stake? then Objects(NotPayable)
    else
      match tx.op
      case Register(endpoint, _) =>
        if s.locked then Objects(ReentrantCall)
        else if Registered(s, tx.sender) then Objects(AlreadyRegistered)
        else if tx.value < 10_000_000_000_000_000 then Objects(InsufficientStake)
        else if endpoint == "" then Objects(EmptyEndpoint)
        else Fine
      case Update(endpoint, _) =>
        if !Registered(s, tx.sender) then Objects(NotRegistered)
        else if endpoint == "" then Objects(EmptyEndpoint)
        else Fine
      case Stake =>
        if s.locked then Objects(ReentrantCall)
        else if !Registered(s, tx.sender) then Objects(NotRegistered)
        else if tx.value == 0 then Objects(ZeroAmount)
        else Fine
      case Unstake(amount) =>
        if s.locked then Objects(ReentrantCall)
        else if !Registered(s, tx.sender) then Objects(NotRegistered)
        else if amount == 0 then Objects(ZeroAmount)
        else if amount > ProviderAt(s, tx.sender).stakedAmount then Objects(InsufficientStake)
        else Fine
      case Deactivate => if !Registered(s, tx.sender) then Objects(NotRegistered) else Fine
      case Reactivate =>
        if !Registered(s, tx.sender) then Objects(NotRegistered)
        else if ProviderAt(s, tx.sender).stakedAmount < 10_000_000_000_000_000 then Objects(InsufficientStake)
        else Fine
      case Slash(wallet) =>
        if s.locked then Objects(ReentrantCall)
        else if tx.sender !in {s.slashAuthority, s.owner} then Objects(Unauthorised)
        else if !Registered(s, wallet) then Objects(NotRegistered)
        else Fine
      case RecordJobCompleted(wallet) =>
        if tx.sender !in {s.slashAuthority, s.owner} then Objects(Unauthorised)
        else if !Registered(s, wallet) then Objects(NotRegistered)
        else Fine
      case _ => if tx.sender != s.owner then Objects(NotOwner) else Fine
  }

  lemma Decided(s: State, tx: Tx)
    ensures match Enter(s, tx.value, tx.op)
            case Shut(error) => Objection(s, tx) == Objects(error)
            case Open =>
              match Begin(Admit(s, tx.value, tx.op), tx.sender, tx.value, tx.op)
              case Fail(error) =>
                Objection(s, tx) == Objects(error) || (Objection(s, tx) == Fine && error == TransferFailed)
              case Finish(_) => Objection(s, tx) == Fine
              case Call(_) => Objection(s, tx) == Fine && (tx.op.Unstake? || tx.op.Slash?)
  {
  }

  lemma FineIsFunded(s: State, tx: Tx)
    requires Inv(s) && Objection(s, tx) == Fine
    ensures Enter(s, tx.value, tx.op) == Open
    ensures var ph := Begin(Admit(s, tx.value, tx.op), tx.sender, tx.value, tx.op);
            !ph.Fail? && (tx.op.Unstake? || tx.op.Slash? <==> ph.Call?)
  {
    Decided(s, tx);
    var s0 := Admit(s, tx.value, tx.op);
    StakedSame(s, s0, s.providerList);
    BeginKeeps(s0, tx.sender, tx.value, tx.op);
  }

  /** In every reachable state, in callbacks too: a call with an objection reverts with that error; one without
      goes through exactly if the party it pays, if any, takes the money. */
  lemma ObjectionDecides(s: State, tx: Tx)
    requires Inv(s)
    ensures match Objection(s, tx)
            case Objects(error) => Exec(s, tx) == Reverted(error, [])
            case Fine =>
              && (Exec(s, tx).Done? <==> (tx.op.Unstake? || tx.op.Slash? ==> tx.callee.accepts))
              && (Exec(s, tx).Reverted? ==> Exec(s, tx).error == TransferFailed)
  {
    Decided(s, tx);
    if Objection(s, tx) == Fine {
      FineIsFunded(s, tx);
    }
  }

  // ----- Effects -----

  /** One record changed, as told; the rest of the state is the same. */
  ghost predicate Rewrites(s: State, s': State, a: Address, p: Provider) {
    s' == s.(providers := s.providers[a := p])
  }

  /** A registration records what was sent, active, at the end of the list. */
  lemma RegisterRecords(s: State, tx: Tx)
    requires Inv(s) && tx.op.Register? && Exec(s, tx).Done?
    ensures var a := tx.sender; var s' := Exec(s, tx).s; var p := ProviderAt(s', a);
            && a !in s.providers && p.wallet == a && p.endpoint == tx.op.endpoint && p.pricePerHour == tx.op.price
            && p.stakedAmount == tx.value && p.slashCount == 0 && p.jobsCompleted == 0 && p.active
            && s' == s.(providers := s.providers[a := p], providerList := s.providerList + [a],
                        balance := s.balance + tx.value, journal := s.journal + [StakeIn(a, tx.value)])
  {
  }

  lemma UpdateRewrites(s: State, tx: Tx)
    requires tx.op.Update? && Exec(s, tx).Done?
    ensures var p := ProviderAt(s, tx.sender);
            Rewrites(s, Exec(s, tx).s, tx.sender, p.(endpoint := tx.op.endpoint, pricePerHour := tx.op.price))
  {
  }

  /** A provider leaves the enumeration, and comes back, at its own word; nothing else about it changes. */
  lemma ActivationRewrites(s: State, tx: Tx)
    requires (tx.op.Deactivate? || tx.op.Reactivate?) && Exec(s, tx).Done?
    ensures Rewrites(s, Exec(s, tx).s, tx.sender, ProviderAt(s, tx.sender).(active := tx.op.Reactivate?))
  {
  }

  lemma RecordCounts(s: State, tx: Tx)
    requires tx.op.RecordJobCompleted? && Exec(s, tx).Done?
    ensures var p := ProviderAt(s, tx.op.wallet);
            Rewrites(s, Exec(s, tx).s, tx.op.wallet, p.(jobsCompleted := p.jobsCompleted + 1))
  {
  }

  /** Added stake is added to the wei, and reactivates exactly when the total reaches the minimum. */
  lemma StakeAdds(s: State, tx: Tx)
    requires Inv(s) && tx.op.Stake? && Exec(s, tx).Done?
    ensures var a := tx.sender; var p, p' := ProviderAt(s, a), ProviderAt(Exec(s, tx).s, a);
            && p' == p.(stakedAmount := p.stakedAmount + tx.value, active := p'.active)
            && (p'.active <==> p.active || p.stakedAmount + tx.value >= 10_000_000_000_000_000)
            && Exec(s, tx).s == s.(providers := s.providers[a := p'], balance := s.balance + tx.value,
                                   journal := s.journal + [StakeIn(a, tx.value)])
  {
  }

  lemma SettersRewrite(s: State, tx: Tx)
    requires (tx.op.SetSlashAuthority? || tx.op.TransferOwnership?) && Exec(s, tx).Done?
    ensures Exec(s, tx).s == if tx.op.SetSlashAuthority? then s.(slashAuthority := tx.op.authority)
                             else s.(owner := tx.op.newOwner)
  {
  }

  // ----- Payouts -----

  /** The state a payout hands to the party it pays. */
  function HandedOver(s: State, tx: Tx): State
    requires (tx.op.Unstake? || tx.op.Slash?) && Exec(s, tx).Done?
    ensures HandedOver(s, tx).locked
  {
    Begin(Admit(s, tx.value, tx.op), tx.sender, tx.value, tx.op).s
  }

  /** It is the first state foreign code sees, and all its calls back start from there. */
  lemma ForeignCodeRuns(s: State, tx: Tx)
    requires (tx.op.Unstake? || tx.op.Slash?) && Exec(s, tx).Done?
    ensures var o := Exec(s, tx);
            && o.seen != [] && o.seen[0] == HandedOver(s, tx)
            && o.seen == Handover(HandedOver(s, tx), tx.callee.calls).seen
            && o.s == Run(HandedOver(s, tx), tx.callee.calls).(locked := false)
  {
    HandoverIsRun(HandedOver(s, tx), tx.callee.calls);
  }

  lemma {:induction false} HandoverIsRun(s: State, calls: seq<Tx>)
    ensures Handover(s, calls).s == Run(s, calls)
    ensures var seen := Handover(s, calls).seen;
            seen != [] && seen[0] == s && seen[|seen| - 1] == Handover(s, calls).s
    decreases |calls|
  {
    if calls != [] {
      HandoverIsRun(After(s, Exec(s, calls[0])), calls[1..]);
    }
  }

  lemma {:induction false} HandoverSeesEach(s: State, calls: seq<Tx>, k: nat)
    requires k <= |calls|
    ensures Run(s, calls[..k]) in Handover(s, calls).seen
    decreases k
  {
    HandoverIsRun(s, calls);
    if k > 0 {
      assert calls[..k][1..] == calls[1..][..k - 1];
      HandoverSeesEach(After(s, Exec(s, calls[0])), calls[1..], k - 1);
    }
  }

  /** An unstake hands over a state in which exactly the amount asked for has left the sender's stake and the
      contract, and the sender is still active exactly if it was and the minimum is still there. */
  lemma UnstakeHands(s: State, tx: Tx)
    requires Inv(s) && tx.op.Unstake? && Exec(s, tx).Done?
    ensures var a := tx.sender; var n := tx.op.amount; var p, h := ProviderAt(s, a), HandedOver(s, tx);
            var p' := ProviderAt(h, a);
            && 0 < n <= p.stakedAmount && n <= s.balance
            && p' == p.(stakedAmount := p.stakedAmount - n, active := p'.active)
            && (p'.active <==> p.active && p.stakedAmount - n >= 10_000_000_000_000_000)
            && h == s.(providers := s.providers[a := p'], balance := s.balance - n, locked := true,
                       journal := s.journal + [StakeOut(a, a, n)])
  {
  }

  lemma SlashHands(s: State, tx: Tx)
    requires Inv(s) && tx.op.Slash? && Exec(s, tx).Done?
    ensures var a := tx.op.wallet; var p, h := ProviderAt(s, a), HandedOver(s, tx); var p' := ProviderAt(h, a);
            var half := p.stakedAmount / 2;
            && half <= s.balance
            && p' == p.(stakedAmount := p.stakedAmount - half, slashCount := p.slashCount + 1, active := p'.active)
            && (p'.active <==> p.active && p.stakedAmount - half >= 10_000_000_000_000_000)
            && h == s.(providers := s.providers[a := p'], balance := s.balance - half, locked := true,
                       journal := s.journal + [SlashOut(a, s.owner, half)])
  {
  }

  lemma HandedKeepsInv(s: State, tx: Tx)
    requires Inv(s) && (tx.op.Unstake? || tx.op.Slash?) && Exec(s, tx).Done?
    ensures Inv(HandedOver(s, tx))
  {
    var s0 := Admit(s, tx.value, tx.op);
    StakedSame(s, s0, s.providerList);
    BeginKeeps(s0, tx.sender, tx.value, tx.op);
  }

  lemma UnstakePays(s: State, tx: Tx)
    requires Inv(s) && tx.op.Unstake? && Exec(s, tx).Done?
    ensures var a := tx.sender; var n := tx.op.amount; var s' := Exec(s, tx).s;
            && ProviderAt(s', a).stakedAmount == ProviderAt(s, a).stakedAmount - n
            && s'.balance == s.balance - n
            && s'.journal == s.journal + [StakeOut(a, a, n)]
            && forall b :: b != a ==> ProviderAt(s', b).stakedAmount == ProviderAt(s, b).stakedAmount
  {
    UnstakeHands(s, tx);
    HandedKeepsInv(s, tx);
    HandoverKeepsStakes(HandedOver(s, tx), tx.callee.calls);
  }

  /** An unstake goes through exactly for a registered sender who asks for some of what it has and takes it. It
      is paid exactly what it asked for, and whatever it calls back, no other stake moves. */
  lemma UnstakeSucceedsIff(s: State, tx: Tx)
    requires Inv(s) && !s.locked && tx.op.Unstake?
    ensures var a := tx.sender; var n := tx.op.amount; var stake := ProviderAt(s, a).stakedAmount; var o := Exec(s, tx);
            && (o.Done? <==> tx.value == 0 && a in s.providers && 0 < n <= stake && tx.callee.accepts)
            && (o.Done? ==>
                  && ProviderAt(o.s, a).stakedAmount == stake - n
                  && o.s.balance == s.balance - n
                  && o.s.journal == s.journal + [StakeOut(a, a, n)]
                  && forall b :: b != a ==> ProviderAt(o.s, b).stakedAmount == ProviderAt(s, b).stakedAmount)
  {
    ObjectionDecides(s, tx);
    if Exec(s, tx).Done? {
      UnstakePays(s, tx);
    }
  }

  /** A slash goes through exactly for the slash authority or the owner, on a registered wallet, if the owner
      takes the money. What it takes is `SlashOnce`. */
  lemma SlashSucceedsIff(s: State, tx: Tx)
    requires Inv(s) && !s.locked && tx.op.Slash?
    ensures Exec(s, tx).Done? <==>
              && tx.value == 0 && (tx.sender == s.slashAuthority || tx.sender == s.owner)
              && tx.op.wallet in s.providers && tx.callee.accepts
  {
    ObjectionDecides(s, tx);
  }
}
