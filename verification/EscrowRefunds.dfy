/** Session ids are taken for good, and only a user who asks or accepts is ever refunded. */
module EscrowRefunds {
  import opened Chain
  import opened EscrowModel
  import opened SessionBooks
  import opened Streaming
  import opened EscrowRuns
  import opened StreamingSchedule
  import opened EscrowOverflow

  /** A session starts exactly with money and a rate, under a free id, for a provider who takes its part. */
  lemma StartSucceedsIff(s: State, tx: Tx, now: nat)
    requires Inv(s) && tx.op.StartSession?
    ensures Exec(s, tx, now).Done? <==>
              && tx.value > 0 && tx.op.rate > 0 && SessionAt(s, tx.op.id).user == ZERO && tx.first.accepts
  {
    AdmitKeeps(s, tx.value, tx.op, now);
    BeginIsFunded(Admit(s, tx.value, tx.op), tx.sender, tx.value, tx.op, now);
  }

  /** A session id once taken belongs to the same user and provider in every run. */
  lemma SessionStaysTaken(s: State, txs: seq<Timed>, id: Id)
    requires Inv(s) && SessionAt(s, id).user != ZERO
    ensures var x, x' := SessionAt(s, id), SessionAt(Run(s, txs), id);
            Inv(Run(s, txs)) && x'.user == x.user && x'.provider == x.provider
  {
    RunKeepsInv(s, txs);
    assert Drips(s, Run(s, txs), Latest(txs), id);
  }

  /** Only a stop and a slash close a session. */
  lemma StaysActive(s: State, tx: Tx, now: nat, id: Id)
    requires Inv(s) && SessionAt(s, id).user != ZERO && SessionAt(s, id).isActive
    requires tx.op != StopSession(id) && tx.op != SlashProvider(id)
    ensures SessionAt(After(s, Exec(s, tx, now)), id).isActive
  {
    if !Names(tx.op, id) {
      ExecElsewhere(s, tx, now, id);
    } else if tx.op.StartSession? {
      StartTaken(s, tx, now);
    } else if Exec(s, tx, now).Done? {
      ReleaseLeaves(s, tx, now);
    }
  }

  /** The user does not stop this session, and does not accept what a slash of it would pay. */
  ghost predicate Mute(tx: Tx, user: Address, id: Id) {
    && (tx.op == StopSession(id) ==> tx.sender != user)
    && (tx.op == SlashProvider(id) ==> !tx.second.accepts)
  }

  lemma MuteCloses(s: State, tx: Tx, now: nat, id: Id)
    requires Inv(s) && SessionAt(s, id).user != ZERO && SessionAt(s, id).isActive
    requires Mute(tx, SessionAt(s, id).user, id) && !SessionAt(After(s, Exec(s, tx, now)), id).isActive
    ensures BooksOf(After(s, Exec(s, tx, now)).journal, id).refund == 0
  {
    if tx.op == StopSession(id) && Exec(s, tx, now).Done? {
      StopBegins(s, tx, now);
      assert false;
    }
    if tx.op == SlashProvider(id) {
      SlashRefundsFully(s, tx, now);
    } else if tx.op != StopSession(id) {
      StaysActive(s, tx, now, id);
    }
  }

  lemma MuteStep(s: State, tx: Tx, now: nat, id: Id)
    requires Inv(s) && SessionAt(s, id).user != ZERO && Mute(tx, SessionAt(s, id).user, id)
    requires BooksOf(s.journal, id).refund == 0
    ensures BooksOf(After(s, Exec(s, tx, now)).journal, id).refund == 0
  {
    var s' := After(s, Exec(s, tx, now));
    ExecKeeps(s, tx, now);
    if SessionAt(s', id).isActive {
      BlankOrActive(s', id);
    } else if SessionAt(s, id).isActive {
      MuteCloses(s, tx, now, id);
    } else {
      var one := [Timed(now, tx)];
      assert one[1..] == [] && Run(s, one) == s';
      ClosedSessionIsFinal(s, one, id);
    }
  }

  /** A user who never stops a session and never accepts a slash's refund is never paid back anything of it. */
  lemma {:induction false} MuteUserGetsNothingBack(s: State, txs: seq<Timed>, id: Id)
    requires Inv(s) && SessionAt(s, id).user != ZERO && BooksOf(s.journal, id).refund == 0
    requires forall i :: 0 <= i < |txs| ==> Mute(txs[i].tx, SessionAt(s, id).user, id)
    ensures BooksOf(Run(s, txs).journal, id).refund == 0
    decreases |txs|
  {
    if txs != [] {
      var s1 := After(s, Exec(s, txs[0].tx, txs[0].now));
      MuteStep(s, txs[0].tx, txs[0].now, id);
      OneStaysTaken(s, txs[0].tx, txs[0].now, id);
      MuteUserGetsNothingBack(s1, txs[1..], id);
    }
  }

  lemma OneStaysTaken(s: State, tx: Tx, now: nat, id: Id)
    requires Inv(s) && SessionAt(s, id).user != ZERO
    ensures var s' := After(s, Exec(s, tx, now)); Inv(s') && SessionAt(s', id).user == SessionAt(s, id).user
  {
    var one := [Timed(now, tx)];
    assert one[1..] == [] && Run(s, one) == After(s, Exec(s, tx, now));
    SessionStaysTaken(s, one, id);
  }

  /** While money remains, such a user's refusal makes the slash itself revert. */
  lemma RefusedSlashReverts(s: State, tx: Tx, now: nat, id: Id)
    requires Inv(s) && tx.op == SlashProvider(id) && !tx.second.accepts && SessionAt(s, id).remainingBalance > 0
    ensures Exec(s, tx, now).Reverted?
  {
    SlashRefundsFully(s, tx, now);
  }
}
