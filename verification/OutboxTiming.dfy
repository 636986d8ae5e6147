/** How long a claim is exclusive, and how long a failed row rests, over every history of the outbox. */
module OutboxTiming {
  import opened OutboxModel
  import opened OutboxProofs

  predicate RecordsResultOf(step: Step, t: Token) { step == MarkingSent(t) || step == MarkingFailed(t) }

  lemma ClaimStep(s: State, step: Step, t: Token)
    requires Inv(s) && Current(s.db, t) && !RecordsResultOf(step, t)
    requires Next(s, step).now <= s.db.outbox[t.key].updated + CLAIM_EXPIRY
    ensures t.key in Next(s, step).db.outbox && Next(s, step).db.outbox[t.key] == s.db.outbox[t.key]
  {
    assert RowOk(s, t.key);
    StepAdvances(s, step, t.key);
    if step.Closing? && step.alert in s.db.alerts && IsOpen(s.db.alerts[step.alert]) {
      NoRecoveryBeforeClose(s, step.alert);
      assert t.key !in RecoveryKeys(s.db.outbox, step.alert, step.notifyRecovery);
    }
  }

  // For five minutes after a claim nothing but its own result touches the row: no other worker can claim it,
  // no close cancels it, no stale-claim recovery takes it back.
  lemma {:induction false} ClaimExclusive(s: State, steps: seq<Step>, t: Token)
    requires Inv(s) && Current(s.db, t)
    requires forall step :: step in steps ==> !RecordsResultOf(step, t)
    requires Run(s, steps).now <= s.db.outbox[t.key].updated + CLAIM_EXPIRY
    ensures t.key in Run(s, steps).db.outbox && Run(s, steps).db.outbox[t.key] == s.db.outbox[t.key]
    decreases |steps|
  {
    if steps != [] {
      var s' := Next(s, steps[0]);
      ClockForward(s', steps[1..]);
      ClaimStep(s, steps[0], t);
      Keeps(s, steps[0]);
      ClaimExclusive(s', steps[1..], t);
    }
  }

  lemma {:induction false} ClockForward(s: State, steps: seq<Step>)
    ensures s.now <= Run(s, steps).now
    decreases |steps|
  {
    if steps != [] { ClockForward(Next(s, steps[0]), steps[1..]); }
  }

  // A worker that records success within five minutes of its claim always succeeds.
  lemma TimelyResultCounts(history: seq<Step>, k: RowKey, more: seq<Step>)
    requires Claimable(After(history).db, After(history).now, k) && After(history).db.outbox[k].payload.Decoded?
    requires var t := Token(k, After(history).db.outbox[k].attempts + 1);
             forall step :: step in more ==> !RecordsResultOf(step, t)
    requires Run(Next(After(history), Claiming(k)), more).now <= After(history).now + CLAIM_EXPIRY
    ensures var t := Token(k, After(history).db.outbox[k].attempts + 1);
            var s := Next(Run(Next(After(history), Claiming(k)), more), MarkingSent(t));
            k in s.db.outbox && s.db.outbox[k].status == Sent
  {
    var s := After(history);
    var t := Token(k, s.db.outbox[k].attempts + 1);
    AfterKeeps(history);
    Keeps(s, Claiming(k));
    var claimed := Next(s, Claiming(k));
    assert Current(claimed.db, t) && claimed.issued[|s.issued|] == t;
    ClaimExclusive(claimed, more, t);
    RunAdvances(claimed, more, k);
    assert t in Run(claimed, more).issued;
  }

  // ---------- the rest after a failure ----------

  // The row cannot be handed out before that time.
  ghost predicate Resting(s: State, k: RowKey, until: nat) {
    k in s.db.outbox && (Terminal(s.db.outbox[k].status)
                         || (s.db.outbox[k].status == Failed && s.db.outbox[k].nextAttempt >= until))
  }

  lemma RestStep(s: State, step: Step, k: RowKey, until: nat)
    requires Inv(s) && Resting(s, k, until) && s.now < until
    ensures Resting(Next(s, step), k, until) && Issued(Next(s, step).issued, k) == Issued(s.issued, k)
  {
    var s' := Next(s, step);
    StepAdvances(s, step, k);
    if s'.issued != s.issued { assert s'.issued[..|s'.issued| - 1] == s.issued; }
    if step.Closing? && step.alert in s.db.alerts && IsOpen(s.db.alerts[step.alert]) {
      NoRecoveryBeforeClose(s, step.alert);
      assert k !in RecoveryKeys(s.db.outbox, step.alert, step.notifyRecovery);
    }
  }

  lemma {:induction false} RestHolds(s: State, steps: seq<Step>, k: RowKey, until: nat)
    requires Inv(s) && Resting(s, k, until) && Run(s, steps).now < until
    ensures Resting(Run(s, steps), k, until) && Issued(Run(s, steps).issued, k) == Issued(s.issued, k)
    decreases |steps|
  {
    if steps != [] {
      ClockForward(s, steps);
      ClockForward(Next(s, steps[0]), steps[1..]);
      RestStep(s, steps[0], k, until);
      Keeps(s, steps[0]);
      RestHolds(Next(s, steps[0]), steps[1..], k, until);
    }
  }

  // After a failure is recorded the row is handed to nobody until its backoff is over. Then it is claimable,
  // except exactly if it was the last attempt or a trigger whose alert closed meanwhile: that row is dead.
  lemma RetryWaits(history: seq<Step>, t: Token, more: seq<Step>)
    requires t in After(history).issued && Current(After(history).db, t) && t.key.alert in After(history).db.alerts
    ensures var s := Next(After(history), MarkingFailed(t));
            var delay := FailurePolicy(t.key.channel, t.attempt).1;
            var last := (t.key.channel != Sysmon && t.attempt >= MAX_ATTEMPTS)
                        || (t.key.event == Trigger && !IsOpen(s.db.alerts[t.key.alert]));
            && t.key in s.db.outbox
            && s.db.outbox[t.key].status == (if last then Dead else Failed)
            && (Run(s, more).now < s.now + delay ==> Issued(Run(s, more).issued, t.key) == Issued(s.issued, t.key))
            && (Claimable(s.db, s.now + delay, t.key) <==> !last)
  {
    var s0 := After(history);
    var s := Next(s0, MarkingFailed(t));
    var due := s.now + FailurePolicy(t.key.channel, t.attempt).1;
    AfterKeeps(history);
    assert RowOk(s0, t.key);
    Keeps(s0, MarkingFailed(t));
    assert RowOk(s, t.key);
    assert Resting(s, t.key, due);
    if Run(s, more).now < due { RestHolds(s, more, t.key, due); }
  }
}
