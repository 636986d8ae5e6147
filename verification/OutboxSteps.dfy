/**
 What each transaction of the outbox does, read off the columns of rows and alerts, in every state that a history
 reaches: which rows a claim hands out, what an opened alert enqueues, and what recording, reclaiming, acknowledging and
 detaching change.
 */
module OutboxSteps {
  import opened Basics
  import opened OutboxModel
  import opened OutboxProofs

  // Whether the row may be handed out, by its own columns, its alert's and its trigger's.
  ghost predicate Due(s: State, k: RowKey)
    requires k in s.db.outbox && k.alert in s.db.alerts
    requires k.event == Recovery ==> TriggerKey(k.alert, k.channel) in s.db.outbox
  {
    var row := s.db.outbox[k];
    && (row.status == Pending || row.status == Failed) && row.nextAttempt <= s.now
    && (k.channel == Sysmon || row.attempts < 8)
    && (if k.event == Trigger then s.db.alerts[k.alert].status != Resolved
        else s.db.outbox[TriggerKey(k.alert, k.channel)].status != Sending)
  }

  lemma RowsComplete(s: State, k: RowKey)
    requires Inv(s) && k in s.db.outbox
    ensures k.alert in s.db.alerts && (k.event == Recovery ==> TriggerKey(k.alert, k.channel) in s.db.outbox)
  {
    assert RowOk(s, k);
  }

  lemma ClaimAnswers(s: State, k: RowKey)
    requires Inv(s)
    ensures k in s.db.outbox ==> k.alert in s.db.alerts
                                 && (k.event == Recovery ==> TriggerKey(k.alert, k.channel) in s.db.outbox)
    ensures var s' := Next(s, Claiming(k));
            if k in s.db.outbox && Due(s, k) then
              var row := s.db.outbox[k];
              if row.payload == Corrupt then
                s' == s.(db := s.db.(outbox := s.db.outbox[k := Row(Dead, 8, row.nextAttempt, s.now, row.payload)]))
              else
                && s'.issued == s.issued + [Token(k, row.attempts + 1)] && s'.now == s.now
                && s'.db == s.db.(outbox := s.db.outbox[k := Row(Sending, row.attempts + 1, row.nextAttempt, s.now,
                                                                  row.payload)])
            else s' == s
  {
    if k in s.db.outbox { RowsComplete(s, k); }
  }

  // After every history, a claim of a row hands out its next attempt if and only if the row waits, is due, decodes, has
  // attempts left or goes to sysmon, and is a trigger of an open alert or a recovery whose trigger is not being sent.
  lemma ClaimExact(history: seq<Step>, k: RowKey)
    ensures var s := After(history);
            Next(s, Claiming(k)).issued != s.issued
            <==> && k in s.db.outbox && k.alert in s.db.alerts
                 && (s.db.outbox[k].status == Pending || s.db.outbox[k].status == Failed)
                 && s.db.outbox[k].nextAttempt <= s.now && s.db.outbox[k].payload.Decoded?
                 && (k.channel == Sysmon || s.db.outbox[k].attempts < 8)
                 && (if k.event == Trigger then s.db.alerts[k.alert].status != Resolved
                     else TriggerKey(k.alert, k.channel) in s.db.outbox
                          && s.db.outbox[TriggerKey(k.alert, k.channel)].status != Sending)
    ensures var s := After(history);
            Next(s, Claiming(k)).issued != s.issued
            ==> k in s.db.outbox
                && Next(s, Claiming(k)).issued == s.issued + [Token(k, s.db.outbox[k].attempts + 1)]
                && Next(s, Claiming(k)).db.outbox
                   == s.db.outbox[k := s.db.outbox[k].(status := Sending, attempts := s.db.outbox[k].attempts + 1,
                                                       updated := s.now)]
  {
    AfterKeeps(history);
    ClaimAnswers(After(history), k);
  }

  // Opening an alert adds one pending row, due at once, for each channel, and nothing else.
  lemma OpenExact(history: seq<Step>, a: nat, r: nat, d: nat, e: nat, cs: seq<Channel>, p: Payload, k: RowKey)
    requires a !in After(history).db.alerts
    ensures var s := After(history);
            var s' := Next(s, Opening(a, r, d, e, cs, p));
            && s'.db.alerts == s.db.alerts[a := Alert(Some(r), d, Active, e, s.now, NotClosed)]
            && (k.alert == a ==>
                  && (k in s'.db.outbox <==> k.event == Trigger && k.channel in cs)
                  && (k in s'.db.outbox ==> s'.db.outbox[k] == Row(Pending, 0, s.now, s.now, p)))
    ensures var s := After(history);
            var s' := Next(s, Opening(a, r, d, e, cs, p));
            && s'.now == s.now && s'.issued == s.issued
            && (k.alert != a ==>
                  && (k in s'.db.outbox <==> k in s.db.outbox)
                  && (k in s.db.outbox ==> s'.db.outbox[k] == s.db.outbox[k]))
  {
    AfterKeeps(history);
    if k in After(history).db.outbox { RowsComplete(After(history), k); }
  }

  // So every channel of a new alert can be handed out at once, as attempt one.
  lemma FreshAlertIsClaimed(history: seq<Step>, a: nat, r: nat, d: nat, e: nat, cs: seq<Channel>, recovery: bool,
                            c: Channel)
    requires a !in After(history).db.alerts && c in cs
    ensures var after := Next(After(history), Opening(a, r, d, e, cs, Decoded(recovery)));
            Next(after, Claiming(TriggerKey(a, c))).issued == After(history).issued + [Token(TriggerKey(a, c), 1)]
  {
    var step := Opening(a, r, d, e, cs, Decoded(recovery));
    AfterKeeps(history);
    Keeps(After(history), step);
    OpenExact(history, a, r, d, e, cs, Decoded(recovery), TriggerKey(a, c));
    ClaimAnswers(Next(After(history), step), TriggerKey(a, c));
  }

  // A success counts exactly while the row is being sent as that attempt; then the row is sent.
  lemma SentExact(history: seq<Step>, t: Token)
    requires t in After(history).issued
    ensures var s := After(history);
            t.key in s.db.outbox
            && var row := s.db.outbox[t.key];
               Next(s, MarkingSent(t))
               == if row.status == Sending && row.attempts == t.attempt
                  then s.(db := s.db.(outbox := s.db.outbox[t.key := row.(status := Sent, updated := s.now)])) else s
  {
    AfterKeeps(history);
  }

  // The backoff after that many attempts, in nanoseconds.
  function Delay(c: Channel, attempts: nat): nat
    requires attempts >= 1
  {
    if c == Sysmon then Min(Pow2(attempts - 1) * 5_000_000_000, 60_000_000_000)
    else Min(Pow2(attempts - 1) * 30_000_000_000, 1_800_000_000_000)
  }

  lemma PolicyExact(c: Channel, attempts: nat)
    requires attempts >= 1
    ensures FailurePolicy(c, attempts) == (if c != Sysmon && attempts >= 8 then Dead else Failed, Delay(c, attempts))
  {
    FailureSchedule(c, attempts);
  }

  lemma FailedAnswers(s: State, t: Token, failed: RowStatus, delay: nat)
    requires t in s.issued && t.key in s.db.outbox && t.key.alert in s.db.alerts
    requires FailurePolicy(t.key.channel, t.attempt) == (failed, delay)
    ensures var row := s.db.outbox[t.key];
            var cut := t.key.event == Trigger && s.db.alerts[t.key.alert].status == Resolved;
            Next(s, MarkingFailed(t))
            == if row.status == Sending && row.attempts == t.attempt
               then s.(db := s.db.(outbox := s.db.outbox[t.key :=
                      Row(if cut then Dead else failed, row.attempts, s.now + delay, s.now, row.payload)]))
               else s
  {}

  // So does a failure: the row waits for its backoff, or is given up on after the eighth attempt outside sysmon and
  // if it is a trigger of an alert that closed meanwhile.
  lemma FailedExact(history: seq<Step>, t: Token)
    requires t in After(history).issued
    ensures t.attempt >= 1 && t.key in After(history).db.outbox && t.key.alert in After(history).db.alerts
    ensures var s := After(history);
            var row := s.db.outbox[t.key];
            var cut := t.key.event == Trigger && s.db.alerts[t.key.alert].status == Resolved;
            var last := t.key.channel != Sysmon && t.attempt >= 8;
            Next(s, MarkingFailed(t))
            == if row.status == Sending && row.attempts == t.attempt
               then s.(db := s.db.(outbox := s.db.outbox[t.key :=
                      Row(if cut then Dead else if last then Dead else Failed, row.attempts,
                          s.now + Delay(t.key.channel, t.attempt), s.now, row.payload)]))
               else s
  {
    AfterKeeps(history);
    RowsComplete(After(history), t.key);
    PolicyExact(t.key.channel, t.attempt);
    FailedAnswers(After(history), t, if t.key.channel != Sysmon && t.attempt >= 8 then Dead else Failed,
                  Delay(t.key.channel, t.attempt));
  }

  // A claim is taken back exactly if its row was last changed more than five minutes ago.
  lemma ReclaimExact(history: seq<Step>, k: RowKey)
    requires k in After(history).db.outbox
    ensures var s := After(history);
            var s', row := Next(s, Reclaiming), s.db.outbox[k];
            && k.alert in s.db.alerts && k in s'.db.outbox && s'.db.alerts == s.db.alerts && s'.issued == s.issued
            && s'.db.outbox.Keys == s.db.outbox.Keys
            && s'.db.outbox[k]
               == if row.status != Sending || s.now <= row.updated + 300_000_000_000 then row
                  else if k.event == Trigger && s.db.alerts[k.alert].status == Resolved
                  then row.(status := Dead, nextAttempt := s.now, updated := s.now)
                  else row.(status := Failed, nextAttempt := s.now, updated := s.now)
  {
    AfterKeeps(history);
    RowsComplete(After(history), k);
  }

  // Acknowledging touches the status of one active alert; removing a rule touches rule ids; neither touches a row.
  lemma AlertEditsExact(s: State, a: nat, r: nat, b: nat)
    requires b in s.db.alerts
    ensures var s', alert := Next(s, Acknowledging(a)), s.db.alerts[b];
            && s'.db.outbox == s.db.outbox && s'.db.alerts.Keys == s.db.alerts.Keys
            && s'.db.alerts[b] == if b == a && alert.status == Active then alert.(status := Acknowledged) else alert
    ensures var s', alert := Next(s, Detaching(r)), s.db.alerts[b];
            && s'.db.outbox == s.db.outbox && s'.db.alerts.Keys == s.db.alerts.Keys
            && s'.db.alerts[b] == if alert.rule == Some(r) then alert.(rule := None) else alert
  {}
}
