/**
 What every step of the outbox machine keeps, and what follows for every history of it:
 delivery order, fencing, terminal rows, bounded retries, complete recoveries and progress.
 */
module OutboxProofs {
  import opened Basics
  import opened OutboxModel

  function Issued(tokens: seq<Token>, k: RowKey): nat {
    if tokens == [] then 0
    else Issued(tokens[..|tokens| - 1], k) + (if tokens[|tokens| - 1].key == k then 1 else 0)
  }

  ghost predicate RowOk(s: State, k: RowKey)
    requires k in s.db.outbox
  {
    var row := s.db.outbox[k];
    && k.alert in s.db.alerts
    && row.updated <= s.now
    && (k.channel == Sysmon || row.attempts <= MAX_ATTEMPTS)
    && (row.status == Pending ==> row.attempts == 0)
    && (row.status == Failed || row.status == Sent ==> row.attempts >= 1)
    && (row.status == Sending ==> row.attempts >= 1 && Token(k, row.attempts) in s.issued)
    && (row.payload == Corrupt ==> row.status == Dead || (row.status == Pending && row.attempts == 0))
    && Issued(s.issued, k) <= row.attempts
    && (if k.event == Trigger then TriggerOk(s.db, k) else RecoveryOk(s.db, k))
  }

  // A closed alert has no trigger that is still to be sent, and a recovery row for every
  // dispatched trigger whose rule wanted one, unless a start of the program closed it.
  ghost predicate TriggerOk(db: Db, k: RowKey)
    requires k in db.outbox && k.alert in db.alerts
  {
    var alert, row := db.alerts[k.alert], db.outbox[k];
    && (!IsOpen(alert) && alert.closing != AtStartup ==> !Waiting(row.status))
    && (!IsOpen(alert) && Dispatched(db.outbox, k) && Promised(alert.closing, row.payload)
        ==> RecoveryKey(k.alert, k.channel) in db.outbox)
  }

  // A recovery row belongs to a closed alert and to a trigger that was dispatched; it has been
  // claimed only after that trigger came to rest.
  ghost predicate RecoveryOk(db: Db, k: RowKey)
    requires k in db.outbox && k.alert in db.alerts
  {
    var t := TriggerKey(k.alert, k.channel);
    && !IsOpen(db.alerts[k.alert])
    && db.outbox[k].payload.Decoded?
    && t in db.outbox && !Waiting(db.outbox[t].status)
    && Promised(db.alerts[k.alert].closing, db.outbox[t].payload)
    && (db.outbox[k].attempts >= 1 ==> Terminal(db.outbox[t].status))
  }

  ghost predicate TokensOk(s: State) {
    && (forall t :: t in s.issued ==>
          t.key in s.db.outbox && 1 <= t.attempt <= s.db.outbox[t.key].attempts
          && s.db.outbox[t.key].payload.Decoded?)
    && (forall i, j :: 0 <= i < j < |s.issued| ==> s.issued[i] != s.issued[j])
  }

  ghost predicate Inv(s: State) {
    && (forall k {:trigger RowOk(s, k)} :: k in s.db.outbox ==> RowOk(s, k))
    && TokensOk(s)
    && (forall a :: a in s.db.alerts ==> (IsOpen(s.db.alerts[a]) <==> s.db.alerts[a].closing == NotClosed))
    && (forall a :: a in s.db.alerts ==> s.db.alerts[a].triggeredAt <= s.now)
  }

  // ---------- every step keeps the invariant ----------

  lemma KeepsOpening(s: State, a: nat, r: nat, d: nat, e: nat, cs: seq<Channel>, p: Payload)
    requires Inv(s)
    ensures Inv(Next(s, Opening(a, r, d, e, cs, p)))
  {
    var s' := Next(s, Opening(a, r, d, e, cs, p));
    if a !in s.db.alerts {
      forall t | t !in s.db.outbox ensures Issued(s.issued, t) == 0 { NotIssued(s.issued, t); }
      forall k | k in s'.db.outbox ensures RowOk(s', k) {
        assert k in s.db.outbox ==> RowOk(s, k);
      }
    }
  }

  lemma NotIssued(tokens: seq<Token>, k: RowKey)
    requires forall t :: t in tokens ==> t.key != k
    ensures Issued(tokens, k) == 0
  {
  }

  lemma ClosingKeepsRow(s: State, a: nat, rule: Option<bool>, k: RowKey)
    requires Inv(s) && Closed(s, a, rule) != s && k in Closed(s, a, rule).db.outbox
    ensures RowOk(Closed(s, a, rule), k)
  {
    if k in RecoveryKeys(s.db.outbox, a, rule) {
      NoRecoveryBeforeClose(s, a);
      assert RowOk(s, TriggerKey(a, k.channel));
      NotIssued(s.issued, k);
    } else {
      assert RowOk(s, k);
      if k.alert == a && k.event == Trigger && Recovers(s.db.outbox, a, rule, k.channel) {
        assert RecoveryKey(a, k.channel) in RecoveryKeys(s.db.outbox, a, rule);
      }
    }
  }

  lemma ClosingKeepsTokens(s: State, a: nat, rule: Option<bool>)
    requires Inv(s) && Closed(s, a, rule) != s
    ensures TokensOk(Closed(s, a, rule))
  {
    NoRecoveryBeforeClose(s, a);
    forall k | k in s.db.outbox ensures k !in RecoveryKeys(s.db.outbox, a, rule) {}
  }

  lemma KeepsClosing(s: State, a: nat, rule: Option<bool>)
    requires Inv(s)
    ensures Inv(Closed(s, a, rule))
  {
    var s' := Closed(s, a, rule);
    if s' != s {
      ClosingKeepsTokens(s, a, rule);
      forall k | k in s'.db.outbox ensures RowOk(s', k) { ClosingKeepsRow(s, a, rule, k); }
    }
  }

  lemma RecoveryIsClosed(s: State, a: nat, c: Channel)
    requires Inv(s) && RecoveryKey(a, c) in s.db.outbox
    ensures a in s.db.alerts && !IsOpen(s.db.alerts[a])
  {
    assert RowOk(s, RecoveryKey(a, c));
  }

  // While an alert is open it has no recovery rows, so the close's INSERT never conflicts and
  // never resets an attempt counter.
  lemma NoRecoveryBeforeClose(s: State, a: nat)
    requires Inv(s) && a in s.db.alerts && IsOpen(s.db.alerts[a])
    ensures forall c :: RecoveryKey(a, c) !in s.db.outbox
  {
    forall c ensures RecoveryKey(a, c) !in s.db.outbox {
      if RecoveryKey(a, c) in s.db.outbox { RecoveryIsClosed(s, a, c); }
    }
  }

  lemma ClaimKeepsRow(s: State, k: RowKey, q: RowKey)
    requires Inv(s) && Claimable(s.db, s.now, k) && q in s.db.outbox
    ensures RowOk(Claimed(s, k), q)
  {
    var s' := Claimed(s, k);
    assert RowOk(s, q) && RowOk(s, k);
    if s'.issued != s.issued { assert s'.issued[..|s.issued|] == s.issued; }
    if q.event == Recovery { assert TriggerKey(q.alert, q.channel) in s.db.outbox; }
  }

  lemma ClaimKeepsTokens(s: State, k: RowKey)
    requires Inv(s) && Claimable(s.db, s.now, k)
    ensures TokensOk(Claimed(s, k))
  {
    var s' := Claimed(s, k);
    assert RowOk(s, k);
    assert forall t :: t in s'.issued ==> t in s.issued || t == Token(k, s.db.outbox[k].attempts + 1);
  }

  lemma KeepsClaiming(s: State, k: RowKey)
    requires Inv(s)
    ensures Inv(Claimed(s, k))
  {
    if Claimable(s.db, s.now, k) {
      ClaimKeepsTokens(s, k);
      forall q | q in Claimed(s, k).db.outbox ensures RowOk(Claimed(s, k), q) { ClaimKeepsRow(s, k, q); }
    }
  }

  lemma MarkingKeepsRow(s: State, t: Token, sent: bool, k: RowKey)
    requires Inv(s) && k in s.db.outbox
    ensures RowOk(Recorded(s, t, sent), k)
  {
    assert RowOk(s, k);
    if k.event == Recovery { assert TriggerKey(k.alert, k.channel) in s.db.outbox; }
  }

  lemma KeepsMarking(s: State, t: Token, sent: bool)
    requires Inv(s)
    ensures Inv(Recorded(s, t, sent))
  {
    forall k | k in s.db.outbox ensures RowOk(Recorded(s, t, sent), k) { MarkingKeepsRow(s, t, sent, k); }
  }

  lemma KeepsReclaiming(s: State)
    requires Inv(s)
    ensures Inv(s.(db := RecoverStale(s.db, s.now)))
  {
    var s' := s.(db := RecoverStale(s.db, s.now));
    forall k | k in s'.db.outbox ensures RowOk(s', k) {
      assert RowOk(s, k);
      if k.event == Recovery { assert TriggerKey(k.alert, k.channel) in s.db.outbox; }
    }
  }

  lemma KeepsAlertEdits(s: State, step: Step)
    requires Inv(s) && (step.Acknowledging? || step.Detaching? || step.Retiring? || step.Tick?)
    ensures Inv(Next(s, step))
  {
    var s' := Next(s, step);
    forall k | k in s'.db.outbox ensures RowOk(s', k) { assert RowOk(s, k); }
  }

  lemma Keeps(s: State, step: Step)
    requires Inv(s)
    ensures Inv(Next(s, step))
  {
    match step
    case Opening(a, r, d, e, cs, p) => KeepsOpening(s, a, r, d, e, cs, p);
    case Closing(a, rule) => KeepsClosing(s, a, rule);
    case Claiming(k) => KeepsClaiming(s, k);
    case MarkingSent(t) => KeepsMarking(s, t, true);
    case MarkingFailed(t) => KeepsMarking(s, t, false);
    case Reclaiming => KeepsReclaiming(s);
    case _ => KeepsAlertEdits(s, step);
  }

  lemma {:induction false} RunKeeps(s: State, steps: seq<Step>)
    requires Inv(s)
    ensures Inv(Run(s, steps))
    decreases |steps|
  {
    if steps != [] {
      Keeps(s, steps[0]);
      RunKeeps(Next(s, steps[0]), steps[1..]);
    }
  }

  lemma AfterKeeps(history: seq<Step>)
    ensures Inv(After(history))
  {
    RunKeeps(Init(), history);
  }

  // ---------- what one step may do to a row ----------

  ghost predicate RowAdvances(s: State, s': State, k: RowKey)
    requires k in s.db.outbox
  {
    && k in s'.db.outbox
    && s.db.outbox[k].attempts <= s'.db.outbox[k].attempts
    && s.db.outbox[k].payload == s'.db.outbox[k].payload
    && (Terminal(s.db.outbox[k].status) ==> s'.db.outbox[k] == s.db.outbox[k])
    && s.issued <= s'.issued && s.now <= s'.now
    && (k.alert in s.db.alerts && !IsOpen(s.db.alerts[k.alert])
        ==> k.alert in s'.db.alerts && !IsOpen(s'.db.alerts[k.alert]))
  }

  lemma StepAdvances(s: State, step: Step, k: RowKey)
    requires Inv(s) && k in s.db.outbox
    ensures RowAdvances(s, Next(s, step), k)
  {
    assert RowOk(s, k);
    if step.Closing? && step.alert in s.db.alerts && IsOpen(s.db.alerts[step.alert]) {
      NoRecoveryBeforeClose(s, step.alert);
      assert k !in RecoveryKeys(s.db.outbox, step.alert, step.notifyRecovery);
    }
  }

  lemma {:induction false} RunAdvances(s: State, steps: seq<Step>, k: RowKey)
    requires Inv(s) && k in s.db.outbox
    ensures RowAdvances(s, Run(s, steps), k)
    decreases |steps|
  {
    if steps != [] {
      StepAdvances(s, steps[0], k);
      Keeps(s, steps[0]);
      RunAdvances(Next(s, steps[0]), steps[1..], k);
    }
  }

  // ---------- theorems over all histories ----------

  // A row that was sent or given up on is never touched again, and attempts never decrease.
  lemma TerminalForever(history: seq<Step>, more: seq<Step>, k: RowKey)
    requires k in After(history).db.outbox
    ensures k in Run(After(history), more).db.outbox
    ensures After(history).db.outbox[k].attempts <= Run(After(history), more).db.outbox[k].attempts
    ensures Terminal(After(history).db.outbox[k].status)
            ==> Run(After(history), more).db.outbox[k] == After(history).db.outbox[k]
  {
    AfterKeeps(history);
    RunAdvances(After(history), more, k);
  }

  // No recovery is sent, or even being sent, before its own trigger was sent or given up on,
  // and that trigger then stays as it is.
  lemma DeliveryOrder(history: seq<Step>, more: seq<Step>, a: nat, c: Channel)
    requires Dispatched(After(history).db.outbox, RecoveryKey(a, c))
    ensures TriggerKey(a, c) in After(history).db.outbox
    ensures Terminal(After(history).db.outbox[TriggerKey(a, c)].status)
    ensures TriggerKey(a, c) in Run(After(history), more).db.outbox
    ensures Run(After(history), more).db.outbox[TriggerKey(a, c)] == After(history).db.outbox[TriggerKey(a, c)]
  {
    var s := After(history);
    AfterKeeps(history);
    assert RowOk(s, RecoveryKey(a, c));
    TerminalForever(history, more, TriggerKey(a, c));
  }

  // Every claim hands out a token nobody was handed before.
  lemma TokensDistinct(history: seq<Step>, i: nat, j: nat)
    requires i < j < |After(history).issued|
    ensures After(history).issued[i] != After(history).issued[j]
  {
    AfterKeeps(history);
  }

  // Once a claim was recovered, cancelled or superseded, its worker can never again change the
  // database, whatever happens in between.
  lemma Fenced(history: seq<Step>, more: seq<Step>, t: Token)
    requires t in After(history).issued && !Current(After(history).db, t)
    ensures !Current(Run(After(history), more).db, t)
    ensures Next(Run(After(history), more), MarkingSent(t)) == Run(After(history), more)
    ensures Next(Run(After(history), more), MarkingFailed(t)) == Run(After(history), more)
  {
    AfterKeeps(history);
    FencedFrom(After(history), more, t);
  }

  lemma FencedStep(s: State, step: Step, t: Token)
    requires Inv(s) && t in s.issued && !Current(s.db, t)
    ensures t in Next(s, step).issued && !Current(Next(s, step).db, t)
  {
    assert RowOk(s, t.key);
    StepAdvances(s, step, t.key);
  }

  lemma {:induction false} FencedFrom(s: State, steps: seq<Step>, t: Token)
    requires Inv(s) && t in s.issued && !Current(s.db, t)
    ensures !Current(Run(s, steps).db, t)
    decreases |steps|
  {
    if steps != [] {
      Keeps(s, steps[0]);
      FencedStep(s, steps[0], t);
      FencedFrom(Next(s, steps[0]), steps[1..], t);
    }
  }

  // A token changes the database at most once: recording its result supersedes it.
  lemma MarkSpendsToken(history: seq<Step>, t: Token)
    ensures !Current(Next(After(history), MarkingSent(t)).db, t) || t !in After(history).issued
    ensures !Current(Next(After(history), MarkingFailed(t)).db, t) || t !in After(history).issued
  {
    var s := After(history);
    AfterKeeps(history);
    if t in s.issued { assert RowOk(s, t.key); }
  }

  // ---------- bounded retries ----------

  function Rank(row: Row): int {
    2 * (MAX_ATTEMPTS - row.attempts)
    + (match row.status case Sending => 2 case Pending => 1 case Failed => 1 case _ => 0)
  }

  function RankAt(s: State, k: RowKey): int { if k in s.db.outbox then Rank(s.db.outbox[k]) else 17 }

  lemma RankFalls(s: State, step: Step, k: RowKey)
    requires Inv(s) && k.channel != Sysmon
    ensures 0 <= RankAt(s, k)
    ensures RankAt(Next(s, step), k) <= RankAt(s, k)
    ensures k in s.db.outbox && Next(s, step).db.outbox[k] != s.db.outbox[k]
            ==> RankAt(Next(s, step), k) < RankAt(s, k)
  {
    if k in s.db.outbox {
      assert RowOk(s, k);
      StepAdvances(s, step, k);
      if step.Closing? && step.alert in s.db.alerts && IsOpen(s.db.alerts[step.alert]) {
        NoRecoveryBeforeClose(s, step.alert);
        assert k !in RecoveryKeys(s.db.outbox, step.alert, step.notifyRecovery);
      }
    } else if step.Closing? && step.alert in s.db.alerts && IsOpen(s.db.alerts[step.alert]) {
      NoRecoveryBeforeClose(s, step.alert);
    }
  }

  // How many steps of a run change an existing row.
  ghost function Changes(s: State, steps: seq<Step>, k: RowKey): nat
    decreases |steps|
  {
    if steps == [] then 0
    else
      var s' := Next(s, steps[0]);
      Changes(s', steps[1..], k)
      + (if k in s.db.outbox && (k !in s'.db.outbox || s'.db.outbox[k] != s.db.outbox[k]) then 1 else 0)
  }

  lemma {:induction false} ChangesFitRank(s: State, steps: seq<Step>, k: RowKey)
    requires Inv(s) && k.channel != Sysmon
    ensures Changes(s, steps, k) + RankAt(Run(s, steps), k) <= RankAt(s, k)
    decreases |steps|
  {
    if steps != [] {
      RankFalls(s, steps[0], k);
      if k in s.db.outbox { StepAdvances(s, steps[0], k); }
      Keeps(s, steps[0]);
      ChangesFitRank(Next(s, steps[0]), steps[1..], k);
    }
  }

  // Off sysmon a row changes at most 17 times after its creation and is handed out at most 8 times.
  lemma BoundedRetries(history: seq<Step>, k: RowKey)
    requires k.channel != Sysmon
    ensures Changes(Init(), history, k) <= 17
    ensures Issued(After(history).issued, k) <= MAX_ATTEMPTS
  {
    AfterKeeps(history);
    ChangesFitRank(Init(), history, k);
    RankFalls(After(history), Tick(0), k);
    if k in After(history).db.outbox { assert RowOk(After(history), k); }
    else { NotIssued(After(history).issued, k); }
  }

  // ---------- complete recoveries ----------

  // Closing an open alert always succeeds and adds fresh recovery rows on exactly the channels whose
  // trigger was sent or is in flight and whose rule wants one; triggers still waiting are dead.
  lemma CloseExact(history: seq<Step>, a: nat, rule: Option<bool>, c: Channel)
    requires a in After(history).db.alerts && IsOpen(After(history).db.alerts[a])
    ensures var s := After(history);
            var res := CloseAlert(s.db, s.now, a, rule);
            && res.Ok?
            && RecoveryKey(a, c) !in s.db.outbox
            && (RecoveryKey(a, c) in res.value.outbox <==> Recovers(s.db.outbox, a, rule, c))
            && (Recovers(s.db.outbox, a, rule, c)
                ==> res.value.outbox[RecoveryKey(a, c)] == Row(Pending, 0, s.now, s.now, Decoded(true)))
            && (TriggerKey(a, c) in s.db.outbox ==>
                  && TriggerKey(a, c) in res.value.outbox
                  && res.value.outbox[TriggerKey(a, c)].status
                     == (if Waiting(s.db.outbox[TriggerKey(a, c)].status) then Dead
                         else s.db.outbox[TriggerKey(a, c)].status))
  {
    var s := After(history);
    AfterKeeps(history);
    NoRecoveryBeforeClose(s, a);
    forall d | TriggerKey(a, d) in s.db.outbox ensures RowOk(s, TriggerKey(a, d)) {}
    if Recovers(s.db.outbox, a, rule, c) { assert RecoveryKey(a, c) in RecoveryKeys(s.db.outbox, a, rule); }
  }

  // On a closed alert a trigger that is in flight or was ever recorded sent, even after the close,
  // has a recovery row exactly if the close wanted one; no other trigger row is still waiting, unless a start of the
  // program closed the alert.
  lemma RecoveryComplete(history: seq<Step>, a: nat, c: Channel)
    requires a in After(history).db.alerts && !IsOpen(After(history).db.alerts[a])
    requires TriggerKey(a, c) in After(history).db.outbox
    ensures var s := After(history);
            var t := s.db.outbox[TriggerKey(a, c)];
            && (s.db.alerts[a].closing != AtStartup ==> !Waiting(t.status))
            && (t.status == Sent || t.status == Sending
                ==> (RecoveryKey(a, c) in s.db.outbox <==> Promised(s.db.alerts[a].closing, t.payload)))
            && (RecoveryKey(a, c) in s.db.outbox ==> Promised(s.db.alerts[a].closing, t.payload))
  {
    AfterKeeps(history);
    var s := After(history);
    assert RowOk(s, TriggerKey(a, c));
    if RecoveryKey(a, c) in s.db.outbox { assert RowOk(s, RecoveryKey(a, c)); }
  }

  lemma {:induction false} ClosedStays(s: State, steps: seq<Step>, a: nat)
    requires a in s.db.alerts && !IsOpen(s.db.alerts[a])
    ensures a in Run(s, steps).db.alerts && !IsOpen(Run(s, steps).db.alerts[a])
    ensures Run(s, steps).db.alerts[a].closing == s.db.alerts[a].closing
    decreases |steps|
  {
    if steps != [] { ClosedStays(Next(s, steps[0]), steps[1..], a); }
  }

  lemma NoRecoveryAtStartup(s: State, a: nat, c: Channel)
    requires Inv(s) && a in s.db.alerts && s.db.alerts[a].closing == AtStartup
    ensures RecoveryKey(a, c) !in s.db.outbox
  {
    assert RecoveryKey(a, c) in s.db.outbox ==> RowOk(s, RecoveryKey(a, c));
  }

  // What a start of the program closes gets no recovery, ever, and no trigger of it is handed out again.
  lemma RetiredForGood(s: State, ids: set<nat>, a: nat, steps: seq<Step>, c: Channel)
    requires Inv(s) && a in ids && a in s.db.alerts && IsOpen(s.db.alerts[a])
    ensures var later := Run(Next(s, Retiring(ids)), steps);
            && RecoveryKey(a, c) !in later.db.outbox
            && Issued(later.issued, TriggerKey(a, c)) == Issued(s.issued, TriggerKey(a, c))
  {
    var retired, k := Next(s, Retiring(ids)), TriggerKey(a, c);
    Keeps(s, Retiring(ids));
    RunKeeps(retired, steps);
    ClosedStays(retired, steps, a);
    NoRecoveryAtStartup(Run(retired, steps), a, c);
    if k in s.db.outbox {
      DeadEnd(retired, steps, k);
    } else {
      NeverThere(retired, steps, k);
      NotIssued(s.issued, k);
      NotIssued(Run(retired, steps).issued, k);
    }
  }

  // Rows of triggers come with their alert.
  lemma {:induction false} NeverThere(s: State, steps: seq<Step>, k: RowKey)
    requires Inv(s) && k.event == Trigger && k.alert in s.db.alerts && k !in s.db.outbox
    ensures k !in Run(s, steps).db.outbox && Inv(Run(s, steps))
    decreases |steps|
  {
    if steps != [] {
      Keeps(s, steps[0]);
      NeverThere(Next(s, steps[0]), steps[1..], k);
    }
  }

  // ---------- progress ----------

  // A row that can still be handed to a worker at some later time.
  ghost predicate Live(s: State, k: RowKey)
    requires k in s.db.outbox && k.alert in s.db.alerts
  {
    && !Terminal(s.db.outbox[k].status)
    && (k.channel == Sysmon || s.db.outbox[k].attempts < MAX_ATTEMPTS)
    && s.db.outbox[k].payload.Decoded?
    && (k.event == Recovery || IsOpen(s.db.alerts[k.alert]))
  }

  ghost predicate HandedOutLater(s: State, k: RowKey) {
    exists more :: Issued(Run(s, more).issued, k) > Issued(s.issued, k)
  }

  // Wait, reclaim, claim.
  function WayOut(wait: nat, k: RowKey): seq<Step> { [Tick(wait), Reclaiming, Claiming(k)] }

  function Expired(s: State, wait: nat): State { State(RecoverStale(s.db, s.now + wait), s.now + wait, s.issued) }

  // Once the row is due and every claim has expired, it is claimable.
  lemma WayOutOpens(s: State, wait: nat, k: RowKey)
    requires Inv(s) && k in s.db.outbox && k.alert in s.db.alerts && Live(s, k)
    requires wait > CLAIM_EXPIRY && s.now + wait >= s.db.outbox[k].nextAttempt
    ensures var later := Expired(s, wait);
            && Claimable(later.db, later.now, k) && later.db.outbox[k].payload.Decoded?
            && later.db.outbox[k].attempts == s.db.outbox[k].attempts
  {
    assert RowOk(s, k);
    if k.event == Recovery { assert RowOk(s, TriggerKey(k.alert, k.channel)); }
  }

  lemma ClaimIssues(s: State, k: RowKey)
    requires Claimable(s.db, s.now, k) && s.db.outbox[k].payload.Decoded?
    ensures Issued(Claimed(s, k).issued, k) == Issued(s.issued, k) + 1
    ensures Current(Claimed(s, k).db, Token(k, s.db.outbox[k].attempts + 1))
  {
    assert Claimed(s, k).issued[..|s.issued|] == s.issued;
  }

  lemma RunOfThree(s: State, x: Step, a: State, y: Step, b: State, z: Step, c: State)
    requires Next(s, x) == a && Next(a, y) == b && Next(b, z) == c
    ensures Run(s, [x, y, z]) == c
  {
    var w := [x, y, z];
    assert w[1..] == [y, z] && w[1..][1..] == [z] && w[1..][1..][1..] == [];
    assert Run(b, [z]) == Run(c, []);
    assert Run(a, [y, z]) == Run(b, [z]);
  }

  lemma WayOutSteps(s: State, wait: nat, k: RowKey)
    ensures Next(s, Tick(wait)) == s.(now := s.now + wait)
    ensures Next(s.(now := s.now + wait), Reclaiming) == Expired(s, wait)
    ensures Next(Expired(s, wait), Claiming(k)) == Claimed(Expired(s, wait), k)
  {}

  lemma WayOutRun(s: State, wait: nat, k: RowKey)
    ensures Run(s, WayOut(wait, k)) == Claimed(Expired(s, wait), k)
  {
    WayOutSteps(s, wait, k);
    RunOfThree(s, Tick(wait), s.(now := s.now + wait), Reclaiming, Expired(s, wait), Claiming(k),
               Claimed(Expired(s, wait), k));
  }

  // Any wait that is long enough, one stale-claim recovery and one claim hand a live row out.
  lemma WayOutWorks(s: State, wait: nat, k: RowKey)
    requires Inv(s) && k in s.db.outbox && k.alert in s.db.alerts && Live(s, k)
    requires wait > CLAIM_EXPIRY && s.now + wait >= s.db.outbox[k].nextAttempt
    ensures Issued(Run(s, WayOut(wait, k)).issued, k) == Issued(s.issued, k) + 1
    ensures Current(Run(s, WayOut(wait, k)).db, Token(k, s.db.outbox[k].attempts + 1))
  {
    WayOutOpens(s, wait, k);
    ClaimIssues(Expired(s, wait), k);
    WayOutRun(s, wait, k);
  }

  lemma {:induction false} DeadEnd(s: State, steps: seq<Step>, k: RowKey)
    requires Inv(s) && k in s.db.outbox && k.alert in s.db.alerts && !Live(s, k)
    ensures Issued(Run(s, steps).issued, k) == Issued(s.issued, k)
    decreases |steps|
  {
    if steps != [] {
      var s' := Next(s, steps[0]);
      assert RowOk(s, k);
      Keeps(s, steps[0]);
      StepAdvances(s, steps[0], k);
      assert RowOk(s', k);
      if s'.issued != s.issued { assert s'.issued[..|s'.issued| - 1] == s.issued; }
      DeadEnd(s', steps[1..], k);
    }
  }

  // Exactly which rows can ever be delivered again. Nothing blocks a live recovery for good: at worst
  // its trigger's claim has to expire.
  lemma Progress(history: seq<Step>, k: RowKey)
    requires k in After(history).db.outbox
    ensures k.alert in After(history).db.alerts
    ensures HandedOutLater(After(history), k) <==> Live(After(history), k)
  {
    var s := After(history);
    AfterKeeps(history);
    assert RowOk(s, k);
    if Live(s, k) {
      WayOutWorks(s, s.db.outbox[k].nextAttempt + CLAIM_EXPIRY + 1, k);
    } else {
      forall more ensures Issued(Run(s, more).issued, k) == Issued(s.issued, k) { DeadEnd(s, more, k); }
    }
  }

  // A due recovery with attempts left is claimable at once, unless its trigger is in flight; then the
  // first reclaim more than five minutes after that trigger's claim makes it claimable.
  lemma RecoveryUnblocks(history: seq<Step>, wait: nat, a: nat, c: Channel)
    requires RecoveryKey(a, c) in After(history).db.outbox
    requires var row := After(history).db.outbox[RecoveryKey(a, c)];
             && Waiting(row.status) && row.nextAttempt <= After(history).now
             && (c == Sysmon || row.attempts < MAX_ATTEMPTS)
    ensures TriggerKey(a, c) in After(history).db.outbox
    ensures var s := After(history);
            var trigger := s.db.outbox[TriggerKey(a, c)];
            var later := Next(Next(s, Tick(wait)), Reclaiming);
            && (Claimable(s.db, s.now, RecoveryKey(a, c)) <==> trigger.status != Sending)
            && (trigger.updated + CLAIM_EXPIRY < s.now + wait
                ==> Claimable(later.db, later.now, RecoveryKey(a, c)))
  {
    AfterKeeps(history);
    var s := After(history);
    assert RowOk(s, RecoveryKey(a, c));
  }

  // ---------- the retry schedule ----------

  lemma Pow2Grows(m: nat, n: nat)
    requires m <= n
    ensures Pow2(m) <= Pow2(n)
  {
  }

  // Delays double from five seconds to a one minute cap on sysmon, from thirty seconds to a thirty
  // minute cap elsewhere; only the eighth failure off sysmon is final.
  lemma FailureSchedule(c: Channel, attempts: nat)
    requires attempts >= 1
    ensures c == Sysmon ==> FailurePolicy(c, attempts) == (Failed, Min(Pow2(attempts - 1) * 5 * SECOND, MINUTE))
    ensures c != Sysmon ==>
              FailurePolicy(c, attempts) == (if attempts >= 8 then Dead else Failed,
                                             Min(Pow2(attempts - 1) * 30 * SECOND, 30 * MINUTE))
  {
    assert Pow2(4) == 16;
    assert Pow2(8) == 16 * Pow2(4);
    if attempts > 5 { Pow2Grows(4, attempts - 1); }
    if attempts > 9 { Pow2Grows(8, attempts - 1); }
  }
}
