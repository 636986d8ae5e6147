/**
 The Manager of internal/alerting: its tables and caches are fields that the methods update in place,
 with the loops of the source. Every method is proved to take exactly the steps of LifecycleModel that it stands
 for, so the theorems about all histories are theorems about sequences of calls of these methods.
 A false argument named commits makes the method's transaction fail and roll back.
 */
module AlertManager {
  import opened Basics
  import opened OutboxModel
  import opened LifecycleModel

  // One device's verdict for one rule inside a pass, and what happens to the transactions it causes.
  datatype Observation = Observation(rule: nat, device: nat, holds: bool, stateCommits: bool,
                                     alertCommits: bool, newAlert: nat)

  // One observation in a pass, and all of them in order.
  ghost function Noticed(w: World, o: Observation): World {
    if o.holds
    then RecordAlert(FireAlert(ObserveCondition(w, o.rule, o.device, o.stateCommits), o.newAlert, o.alertCommits))
    else DropState(ClearCondition(w, o.rule, o.device, o.stateCommits))
  }

  ghost function Passed(w: World, observations: seq<Observation>): World {
    if observations == [] then w
    else Noticed(Passed(w, observations[..|observations| - 1]), observations[|observations| - 1])
  }

  // A reload that nothing interrupts.
  ghost function Reloaded(w: World): World {
    Install(ReadLast(ReadStates(ReadRules(w), |w.loads|), |w.loads|), |w.loads|)
  }

  // It makes memory what the tables determine and changes nothing else.
  lemma ReloadUninterrupted(w: World)
    ensures Reloaded(w) == w.(mem := Load(w.store),
                              loads := w.loads + [Loading(4, Load(w.store), w.store.core.alerts.Keys)])
  {
    assert Reloaded(w).loads == w.loads + [Loading(4, Load(w.store), w.store.core.alerts.Keys)];
  }

  function ActionsOf(o: Observation): seq<Action> {
    if o.holds then [Observe(o.rule, o.device, o.stateCommits), Fire(o.newAlert, o.alertCommits), Record]
    else [Clear(o.rule, o.device, o.stateCommits), Drop]
  }

  function PassActions(observations: seq<Observation>): seq<Action> {
    if observations == [] then [] else PassActions(observations[..|observations| - 1])
                                       + ActionsOf(observations[|observations| - 1])
  }

  lemma {:induction false} DoAllConcat(w: World, xs: seq<Action>, ys: seq<Action>)
    ensures DoAll(w, xs + ys) == DoAll(DoAll(w, xs), ys)
    decreases |xs|
  {
    if xs == [] {
      assert xs + ys == ys;
    } else {
      assert (xs + ys)[1..] == xs[1..] + ys;
      DoAllConcat(Do(w, xs[0]), xs[1..], ys);
    }
  }

  lemma DoAllOne(w: World, x: Action)
    ensures DoAll(w, [x]) == Do(w, x)
  {
    assert [x][1..] == [];
    assert DoAll(Do(w, x), []) == Do(w, x);
  }

  lemma DoAllAfter(w: World, x: Action, rest: seq<Action>)
    ensures DoAll(w, [x] + rest) == DoAll(Do(w, x), rest)
  {
    assert ([x] + rest)[1..] == rest;
  }

  lemma TwoActions(w: World, x: Action, y: Action)
    ensures DoAll(w, [x, y]) == Do(Do(w, x), y)
  {
    DoAllAfter(w, x, [y]);
    DoAllOne(Do(w, x), y);
    assert [x] + [y] == [x, y];
  }

  lemma ThreeActions(w: World, x: Action, y: Action, z: Action)
    ensures DoAll(w, [x, y, z]) == Do(Do(Do(w, x), y), z)
  {
    DoAllAfter(w, x, [y, z]);
    TwoActions(Do(w, x), y, z);
    assert [x] + [y, z] == [x, y, z];
  }

  lemma HoldsIsActions(w: World, o: Observation)
    requires o.holds
    ensures Noticed(w, o) == DoAll(w, ActionsOf(o))
  {
    var x, y := Observe(o.rule, o.device, o.stateCommits), Fire(o.newAlert, o.alertCommits);
    ThreeActions(w, x, y, Record);
    assert Do(w, x) == ObserveCondition(w, o.rule, o.device, o.stateCommits);
    assert Do(Do(w, x), y) == FireAlert(Do(w, x), o.newAlert, o.alertCommits);
  }

  lemma ClearsIsActions(w: World, o: Observation)
    requires !o.holds
    ensures Noticed(w, o) == DoAll(w, ActionsOf(o))
  {
    TwoActions(w, Clear(o.rule, o.device, o.stateCommits), Drop);
  }

  // What a pass does is a history, so the theorems about all histories apply to it.
  lemma {:induction false} PassIsHistory(w: World, observations: seq<Observation>)
    ensures Passed(w, observations) == DoAll(w, PassActions(observations))
  {
    if observations != [] {
      var init, last := observations[..|observations| - 1], observations[|observations| - 1];
      PassIsHistory(w, init);
      var mid := DoAll(w, PassActions(init));
      if last.holds { HoldsIsActions(mid, last); } else { ClearsIsActions(mid, last); }
      DoAllConcat(w, PassActions(init), ActionsOf(last));
    }
  }

  // The close of one alert after only some of its triggers were looked at.
  function SeenKeys(outbox: map<RowKey, Row>, a: nat, rule: Option<bool>, seen: set<Channel>): set<RowKey> {
    set c | c in seen && Recovers(outbox, a, rule, c) :: RecoveryKey(a, c)
  }

  function PartlyClosed(outbox: map<RowKey, Row>, now: nat, a: nat, rule: Option<bool>, seen: set<Channel>)
    : map<RowKey, Row>
  {
    map k | k in outbox.Keys + SeenKeys(outbox, a, rule, seen) ::
      if k in SeenKeys(outbox, a, rule, seen) then UpsertedRow(outbox, k, now)
      else CanceledRow(k, outbox[k], now, a)
  }

  lemma PartlyClosedStart(outbox: map<RowKey, Row>, now: nat, a: nat, rule: Option<bool>)
    ensures PartlyClosed(outbox, now, a, rule, {}) == map k | k in outbox :: CanceledRow(k, outbox[k], now, a)
  {
  }

  lemma SeenOneMore(outbox: map<RowKey, Row>, a: nat, rule: Option<bool>, seen: set<Channel>, c: Channel)
    ensures SeenKeys(outbox, a, rule, seen + {c})
            == SeenKeys(outbox, a, rule, seen) + if Recovers(outbox, a, rule, c) then {RecoveryKey(a, c)} else {}
  {
  }

  lemma PartlyClosedStep(outbox: map<RowKey, Row>, now: nat, a: nat, rule: Option<bool>, seen: set<Channel>, c: Channel)
    ensures var before, k := PartlyClosed(outbox, now, a, rule, seen), RecoveryKey(a, c);
            PartlyClosed(outbox, now, a, rule, seen + {c})
            == if Recovers(outbox, a, rule, c) then before[k := UpsertedRow(outbox, k, now)] else before
  {
    SeenOneMore(outbox, a, rule, seen, c);
  }

  lemma PartlyClosedEnd(outbox: map<RowKey, Row>, now: nat, a: nat, rule: Option<bool>, seen: set<Channel>)
    requires forall c :: TriggerKey(a, c) in outbox ==> c in seen
    ensures PartlyClosed(outbox, now, a, rule, seen) == ClosedOutbox(outbox, now, a, rule)
  {
    var x, y := PartlyClosed(outbox, now, a, rule, seen), ClosedOutbox(outbox, now, a, rule);
    assert RecoveryKeys(outbox, a, rule) == SeenKeys(outbox, a, rule, seen);
    assert x.Keys == y.Keys;
  }

  lemma ForgetsOne(mem: Memory, k: Key)
    ensures Written(mem, Forget(k)) == mem.(states := mem.states - {k})
  {
    assert StatesLeft(mem.states, Forget(k)) == mem.states - {k};
    assert CooldownsLeft(mem.last, Forget(k)) == mem.last;
  }

  lemma DeviceFlagsOpen(store: LifecycleModel.Store, d: nat)
    ensures AllOpen(store.core, DeviceFlags(store, d))
  {
  }

  lemma LatestUnique(store: Store, m: map<Key, nat>)
    requires forall k :: k in m <==> exists a :: Eligible(store, a, k)
    requires forall k :: k in m ==> IsLatest(store, k, m[k])
    ensures m == LoadLast(store)
  {
    forall k | k in m ensures k in LoadLast(store) && LoadLast(store)[k] == m[k] {
      assert IsLatest(store, k, LoadLast(store)[k]);
    }
  }

  class Manager {
    // tables
    var alerts: map<nat, Alert>
    var outbox: map<RowKey, Row>
    var alertRules: map<nat, RuleRow>
    var nextRule: nat
    var alertStates: map<Key, Occurrence>
    // memory
    var rules: map<nat, Rule>
    var states: map<Key, Occurrence>
    var lastNotified: map<Key, nat>
    // the clock and the current evaluation pass
    var now: nat
    var passNow: nat
    var passRules: map<nat, Rule>
    // what the goroutines under way hold in local variables
    ghost var eval: Eval
    ghost var owed: multiset<Write>
    ghost var loads: seq<Loading>
    ghost var issued: seq<Token>

    ghost function Db(): OutboxModel.Db reads this { OutboxModel.Db(alerts, outbox) }

    ghost function Store(): LifecycleModel.Store reads this {
      LifecycleModel.Store(Db(), alertRules, alertStates, nextRule)
    }

    ghost function World(): LifecycleModel.World reads this {
      LifecycleModel.World(Store(), Memory(rules, states, lastNotified), now, Pass(passNow, passRules), eval, owed,
                           loads, issued)
    }

    constructor ()
      ensures World() == Start()
    {
      alerts, outbox, alertRules, alertStates := map[], map[], map[], map[];
      rules, states, lastNotified := map[], map[], map[];
      nextRule, now, passNow, passRules := 0, 0, 0, map[];
      eval, owed, loads, issued := Idle, multiset{}, [], [];
    }

    method Advance(elapsed: nat)
      modifies `now
      ensures World() == old(World()).(now := old(now) + elapsed)
    {
      now := now + elapsed;
    }

    // ---------- delivery ----------

    // SELECT ... ORDER BY next_attempt_at LIMIT 1, skipping rows locked by other workers.
    method SelectDue(sysmonOnly: bool, locked: set<RowKey>) returns (best: Option<RowKey>)
      ensures best.None? ==> forall k :: Claimable(Db(), now, k) && (k.channel == Sysmon) == sysmonOnly ==> k in locked
      ensures best.Some? ==>
                var k := best.value;
                && Claimable(Db(), now, k) && (k.channel == Sysmon) == sysmonOnly && k !in locked
                && forall q :: Claimable(Db(), now, q) && (q.channel == Sysmon) == sysmonOnly && q !in locked
                               ==> outbox[k].nextAttempt <= outbox[q].nextAttempt
    {
      best := None;
      var todo := outbox.Keys;
      while todo != {}
        invariant todo <= outbox.Keys
        invariant best.Some? ==> best.value in outbox.Keys - todo && best.value !in locked
                                 && Claimable(Db(), now, best.value) && (best.value.channel == Sysmon) == sysmonOnly
        invariant forall q :: q in outbox.Keys - todo && q !in locked && Claimable(Db(), now, q)
                              && (q.channel == Sysmon) == sysmonOnly
                              ==> best.Some? && outbox[best.value].nextAttempt <= outbox[q].nextAttempt
        decreases todo
      {
        var k :| k in todo;
        todo := todo - {k};
        if k !in locked && (k.channel == Sysmon) == sysmonOnly && Claimable(OutboxModel.Db(alerts, outbox), now, k) {
          if best.None? || outbox[k].nextAttempt < outbox[best.value].nextAttempt { best := Some(k); }
        }
      }
    }

    method ClaimNotification(sysmonOnly: bool, locked: set<RowKey>, commits: bool) returns (item: Option<Token>)
      modifies `outbox, `issued
      ensures item.Some? ==>
                var k := item.value.key;
                && commits && (k.channel == Sysmon) == sysmonOnly && k !in locked
                && old(Claimable(Db(), now, k)) && item.value.attempt == old(outbox)[k].attempts + 1
                && Core(World()) == Claimed(old(Core(World())), k)
                && Current(Db(), item.value)
                && forall q :: old(Claimable(Db(), now, q)) && (q.channel == Sysmon) == sysmonOnly && q !in locked
                               ==> old(outbox)[k].nextAttempt <= old(outbox)[q].nextAttempt
      ensures item.None? && commits ==>
                || (World() == old(World())
                    && forall k :: Claimable(Db(), now, k) && (k.channel == Sysmon) == sysmonOnly ==> k in locked)
                || exists k :: old(Claimable(Db(), now, k)) && old(outbox)[k].payload == Corrupt
                               && Core(World()) == Claimed(old(Core(World())), k)
      ensures !commits ==> World() == old(World())
    {
      var due := SelectDue(sysmonOnly, locked);
      item := None;
      if due.Some? && commits {
        var k := due.value;
        var row := outbox[k];
        if row.payload == Corrupt {
          outbox := outbox[k := row.(status := Dead, attempts := MAX_ATTEMPTS, updated := now)];
        } else {
          item := Some(Token(k, row.attempts + 1));
          outbox := outbox[k := row.(status := Sending, attempts := row.attempts + 1, updated := now)];
          issued := issued + [Token(k, row.attempts + 1)];
        }
      }
    }

    method MarkNotificationSent(item: Token, commits: bool)
      requires item in issued
      modifies `outbox
      ensures Core(World()) == if commits then Recorded(old(Core(World())), item, true) else old(Core(World()))
    {
      if commits && item.key in outbox {
        var row := outbox[item.key];
        if row.status == Sending && row.attempts == item.attempt {
          outbox := outbox[item.key := row.(status := Sent, updated := now)];
        }
      }
    }

    method MarkNotificationFailed(item: Token, commits: bool)
      requires item in issued
      modifies `outbox
      ensures Core(World()) == if commits then Recorded(old(Core(World())), item, false) else old(Core(World()))
    {
      var (status, backoff) := FailurePolicy(item.key.channel, item.attempt);
      if commits && item.key.alert in alerts && item.key in outbox {
        if item.key.event == Trigger && alerts[item.key.alert].status == Resolved { status := Dead; }
        var row := outbox[item.key];
        if row.status == Sending && row.attempts == item.attempt {
          outbox := outbox[item.key := row.(status := status, nextAttempt := now + backoff, updated := now)];
        }
      }
    }

    method RecoverStaleNotificationClaims(commits: bool)
      modifies `outbox
      ensures Db() == if commits then RecoverStale(old(Db()), now) else old(Db())
    {
      if commits { outbox := map k | k in outbox :: ReclaimedRow(OutboxModel.Db(alerts, outbox), now, k); }
    }

    // One round of a worker: claim a row, deliver it, record the outcome. Without a row to work on nothing changes,
    // but that a row with a corrupt payload may die.
    method WorkOnce(sysmonOnly: bool, locked: set<RowKey>, delivered: bool, recorded: bool) returns (worked: bool)
      modifies `outbox, `issued
      ensures worked ==> exists t: Token ::
                var claimed := Claimed(old(Core(World())), t.key);
                && t in claimed.issued && old(Claimable(Db(), now, t.key))
                && Core(World()) == if recorded then Recorded(claimed, t, delivered) else claimed
      ensures !worked ==>
                || Core(World()) == old(Core(World()))
                || exists k :: old(Claimable(Db(), now, k)) && old(outbox)[k].payload == Corrupt
                               && Core(World()) == Claimed(old(Core(World())), k)
    {
      var item := ClaimNotification(sysmonOnly, locked, true);
      worked := item.Some?;
      if worked {
        assert item.value in issued;
        if delivered { MarkNotificationSent(item.value, recorded); }
        else { MarkNotificationFailed(item.value, recorded); }
      }
    }

    // ---------- closing ----------

    // The channels of the alert's trigger rows.
    method TriggerChannels(a: nat) returns (triggers: seq<Channel>)
      ensures forall c :: c in triggers <==> TriggerKey(a, c) in outbox
    {
      triggers := [];
      var all := [Email, Webhook, Zabbix, Sysmon];
      for i := 0 to 4
        invariant forall c :: c in triggers <==> c in all[..i] && TriggerKey(a, c) in outbox
      {
        if TriggerKey(a, all[i]) in outbox { triggers := triggers + [all[i]]; }
      }
      forall c: Channel ensures c in all[..4] {
        var i := match c case Email => 0 case Webhook => 1 case Zabbix => 2 case Sysmon => 3;
        assert all[..4][i] == c;
      }
    }

    // Runs inside the caller's transaction; on failure the caller rolls back what was written so far.
    method ResolveAlertTx(a: nat, rule: Option<bool>) returns (ok: bool)
      modifies `alerts, `outbox
      ensures ok <==> CloseAlert(old(Db()), now, a, rule).Ok?
      ensures ok ==> Db() == CloseAlert(old(Db()), now, a, rule).value
    {
      if a !in alerts { return false; }
      if alerts[a].status == Resolved { return true; }
      var read := outbox;
      var triggers := TriggerChannels(a);
      alerts := alerts[a := ClosedAlert(alerts[a], rule)];
      outbox := map k | k in outbox :: CanceledRow(k, outbox[k], now, a);
      PartlyClosedStart(read, now, a, rule);
      var i := 0;
      ghost var seen: set<Channel> := {};
      while i < |triggers|
        invariant 0 <= i <= |triggers| && alerts == old(alerts)[a := ClosedAlert(old(alerts)[a], rule)]
        invariant forall c :: c in seen <==> c in triggers[..i]
        invariant outbox == PartlyClosed(read, now, a, rule, seen)
        invariant rule.None? ==> forall c :: c in seen && Dispatched(read, TriggerKey(a, c))
                                             ==> read[TriggerKey(a, c)].payload != Corrupt
      {
        var c := triggers[i];
        var trigger := read[TriggerKey(a, c)];
        PartlyClosedStep(read, now, a, rule, seen, c);
        if trigger.status == Sent || trigger.status == Sending {
          if trigger.payload == Corrupt && rule.None? { return false; }
          if if rule.Some? then rule.value else trigger.payload.notifyRecovery {
            outbox := outbox[RecoveryKey(a, c) := UpsertedRow(read, RecoveryKey(a, c), now)];
          }
        }
        seen := seen + {c};
        i := i + 1;
      }
      assert triggers[..i] == triggers;
      PartlyClosedEnd(read, now, a, rule, seen);
      return true;
    }

    // resolveRuleDeviceAlertsTx, resolveRuleAlertsTx and the loop of ResolveDeviceAlerts differ only in
    // which open alerts they select and in how each alert's rule is found.
    method ResolveEachTx(flags: map<nat, Option<bool>>) returns (ok: bool)
      requires AllOpen(Db(), flags)
      modifies `alerts, `outbox
      ensures ok <==> CloseAlerts(old(Db()), now, flags).Ok?
      ensures ok ==> Db() == CloseAlerts(old(Db()), now, flags).value
    {
      ghost var before := Db();
      var todo := flags.Keys;
      assert flags - todo == map[];
      assert ClosedSet(before, now, map[]) == before;
      while todo != {}
        invariant todo <= flags.Keys
        invariant Db() == ClosedSet(before, now, flags - todo)
        invariant forall a :: a in flags.Keys - todo ==> !CloseBlocked(before.outbox, a, flags[a])
        decreases todo
      {
        var a :| a in todo;
        ghost var done := flags - (todo - {a});
        assert done - {a} == flags - todo;
        CloseOneMore(before, now, done, a);
        var closed := ResolveAlertTx(a, flags[a]);
        if !closed { return false; }
        todo := todo - {a};
      }
      assert flags - todo == flags;
      return true;
    }

    // The same in a transaction of their own.
    method ResolveOrRollBack(a: nat, rule: Option<bool>) returns (ok: bool)
      modifies `alerts, `outbox
      ensures var closed := CloseAlert(old(Db()), now, a, rule);
              ok == closed.Ok? && Db() == if ok then closed.value else old(Db())
    {
      var savedAlerts, savedOutbox := alerts, outbox;
      ok := ResolveAlertTx(a, rule);
      if !ok { alerts, outbox := savedAlerts, savedOutbox; }
    }

    method ResolveEachOrRollBack(flags: map<nat, Option<bool>>) returns (ok: bool)
      requires AllOpen(Db(), flags)
      modifies `alerts, `outbox
      ensures var closed := CloseAlerts(old(Db()), now, flags);
              ok == closed.Ok? && Db() == if ok then closed.value else old(Db())
    {
      var savedAlerts, savedOutbox := alerts, outbox;
      ok := ResolveEachTx(flags);
      if !ok { alerts, outbox := savedAlerts, savedOutbox; }
    }

    // ---------- the evaluator ----------

    // Alerts of one rule: their payloads can always be rebuilt, so nothing blocks the close.
    method ResolveSetTx(ids: set<nat>, flag: bool)
      requires forall a :: a in ids ==> a in alerts && IsOpen(alerts[a])
      modifies `alerts, `outbox
      ensures Db() == ClosedSet(old(Db()), now, SameFlag(ids, flag))
      ensures CloseAlerts(old(Db()), now, SameFlag(ids, flag)) == Ok(Db())
    {
      var ok := ResolveEachTx(SameFlag(ids, flag));
      assert ok;
    }

    // First half of handleTriggered: remember the condition, and decide whether to open an alert.
    method TrackCondition(r: nat, d: nat, commits: bool) returns (attempt: Option<Attempt>)
      requires eval == Idle
      modifies `states, `alertStates, `eval
      ensures World() == ObserveCondition(old(World()), r, d, commits)
      ensures eval == if attempt.Some? then Ready(attempt.value) else Idle
    {
      if r !in passRules { return None; }
      var k, rule := Key(r, d), passRules[r];
      var known := k in states;
      if !known { states := states[k := Occurrence(passNow, false)]; }
      var state := states[k];
      var last := if k in lastNotified then Some(lastNotified[k]) else None;
      if !known {
        if !commits || r !in alertRules {
          states := states - {k};
          assert states == old(states);
          return None;
        }
        alertStates := alertStates[k := Occurrence(passNow, false)];
      } else if !commits {
        return None;
      }
      assert states == old(states)[k := state];
      if passNow - state.first < rule.duration || state.notified { return None; }
      if last.Some? && passNow - last.value < rule.cooldown { return None; }
      attempt := Some(Attempt(k, rule, passNow, state.first, last));
      eval := Ready(attempt.value);
    }

    method InsertAlert(t: Attempt, a: nat)
      requires a !in alerts
      modifies `alerts, `outbox
      ensures Db() == OpenAlert(old(Db()), now, a, t.key.rule, t.key.device, t.evaluatedAt, t.rule.channels,
                                Decoded(t.rule.notifyRecovery))
    {
      alerts := alerts[a := Alert(Some(t.key.rule), t.key.device, Active, t.evaluatedAt, now, NotClosed)];
      var keys := set c | c in t.rule.channels :: TriggerKey(a, c);
      outbox := map q | q in outbox.Keys + keys ::
        if q in outbox then outbox[q] else FreshRow(now, Decoded(t.rule.notifyRecovery));
    }

    method NotifyState(k: Key)
      modifies `alertStates
      ensures alertStates == Notify(old(alertStates), k)
    {
      if k in alertStates { alertStates := alertStates[k := alertStates[k].(notified := true)]; }
    }

    method InsertOccurrence(t: Attempt, a: nat)
      requires a !in alerts
      modifies `alerts, `outbox, `alertStates
      ensures Store() == Occurred(old(World()), t, a)
    {
      InsertAlert(t, a);
      NotifyState(t.key);
    }

    // Second half: the alert, its trigger rows and notified=true in one transaction.
    method OpenOccurrence(t: Attempt, a: nat, commits: bool) returns (fired: bool)
      requires eval == Ready(t)
      modifies `alerts, `outbox, `alertStates, `eval
      ensures World() == FireAlert(old(World()), a, commits)
      ensures eval == if fired then Recording(t.key, t.evaluatedAt) else Idle
    {
      fired := commits && t.key.rule in alertRules && a !in alerts;
      if fired {
        InsertOccurrence(t, a);
        eval := Recording(t.key, t.evaluatedAt);
      } else {
        eval := Idle;
      }
    }

    method RecordOccurrence(t: Attempt)
      requires eval == Recording(t.key, t.evaluatedAt)
      modifies `states, `lastNotified, `eval
      ensures World() == RecordAlert(old(World())) && eval == Idle
    {
      if t.key in states { states := states[t.key := states[t.key].(notified := true)]; }
      lastNotified := lastNotified[t.key := t.evaluatedAt];
      eval := Idle;
    }

    method HandleTriggered(r: nat, d: nat, stateCommits: bool, newAlert: nat, alertCommits: bool)
      requires eval == Idle
      modifies this
      ensures var observed := ObserveCondition(old(World()), r, d, stateCommits);
              World() == RecordAlert(FireAlert(observed, newAlert, alertCommits))
      ensures eval == Idle
    {
      var attempt := TrackCondition(r, d, stateCommits);
      if attempt.Some? {
        var fired := OpenOccurrence(attempt.value, newAlert, alertCommits);
        if fired { RecordOccurrence(attempt.value); }
      }
    }

    // Close what is open for the key and delete its state.
    method ResolveKeyTx(k: Key, notified: bool, flag: bool)
      modifies `alerts, `outbox, `alertStates
      ensures var ids := if notified then OpenForKey(old(Db()), k) else {};
              CloseAlerts(old(Db()), now, SameFlag(ids, flag)) == Ok(Db())
      ensures alertStates == old(alertStates) - {k}
    {
      var ids := if notified then OpenForKey(OutboxModel.Db(alerts, outbox), k) else {};
      ResolveSetTx(ids, flag);
      alertStates := alertStates - {k};
    }

    // The transaction of handleResolved.
    method ResolveCondition(r: nat, d: nat, commits: bool) returns (dropped: bool)
      requires eval == Idle
      modifies `alerts, `outbox, `alertStates, `eval
      ensures World() == ClearCondition(old(World()), r, d, commits)
      ensures eval == if dropped then Dropping(Key(r, d)) else Idle
    {
      var k := Key(r, d);
      dropped := k in states && r in passRules && commits;
      if dropped {
        ResolveKeyTx(k, states[k].notified, passRules[r].notifyRecovery);
        eval := Dropping(k);
      }
    }

    method HandleResolved(r: nat, d: nat, commits: bool)
      requires eval == Idle
      modifies this
      ensures World() == DropState(ClearCondition(old(World()), r, d, commits)) && eval == Idle
    {
      var dropped := ResolveCondition(r, d, commits);
      if dropped {
        states := states - {Key(r, d)};
        eval := Idle;
      }
    }

    method Evaluate(observations: seq<Observation>)
      requires eval == Idle
      modifies this
      ensures World() == Passed(Clocked(StartPass(old(World()))), observations) && eval == Idle
    {
      passRules := rules;
      passNow := now;
      ghost var begun := World();
      assert observations[..0] == [];
      for i := 0 to |observations|
        invariant eval == Idle && World() == Passed(begun, observations[..i])
      {
        var o := observations[i];
        if o.holds { HandleTriggered(o.rule, o.device, o.stateCommits, o.newAlert, o.alertCommits); }
        else { HandleResolved(o.rule, o.device, o.stateCommits); }
        assert observations[..i + 1][..i] == observations[..i];
      }
      assert observations[..|observations|] == observations;
    }

    // ---------- operators ----------

    method AcknowledgeAlert(a: nat)
      modifies `alerts
      ensures World() == LifecycleModel.AcknowledgeAlert(old(World()), a)
    {
      if a in alerts && alerts[a].status == Active { alerts := alerts[a := alerts[a].(status := Acknowledged)]; }
    }

    method ResolveByFlag(a: nat) returns (ok: bool)
      requires a in alerts
      modifies `alerts, `outbox
      ensures var closed := CloseAlert(old(Db()), now, a, RuleFlag(old(Store()), a));
              ok == closed.Ok? && Db() == if ok then closed.value else old(Db())
    {
      var rule := alerts[a].rule;
      var flag := if rule.Some? && rule.value in alertRules
                  then Some(alertRules[rule.value].rule.notifyRecovery) else None;
      ok := ResolveOrRollBack(a, flag);
    }

    // The transaction of ResolveAlert, and the key that memory still has to forget.
    method ResolveAlertRow(a: nat, commits: bool) returns (forget: Option<Key>)
      modifies `alerts, `outbox, `alertStates, `owed
      ensures World() == ResolveByHand(old(World()), a, commits)
      ensures forget.Some? ==> Forget(forget.value) in owed
    {
      forget := None;
      if a in alerts && alerts[a].status != Resolved && commits {
        var rule, d := alerts[a].rule, alerts[a].device;
        var ok := ResolveByFlag(a);
        if ok && rule.Some? {
          var k := Key(rule.value, d);
          alertStates := alertStates - {k};
          owed := owed + multiset{Forget(k)};
          forget := Some(k);
        }
      }
    }

    method ForgetState(k: Key)
      requires Forget(k) in owed
      modifies `states, `owed
      ensures World() == SettleWrite(old(World()), Forget(k))
    {
      ForgetsOne(World().mem, k);
      states := states - {k};
      owed := owed - multiset{Forget(k)};
    }

    method ResolveAlert(a: nat, commits: bool)
      modifies this
      ensures World() == ResolveByHand(old(World()), a, commits)
              || exists k :: World() == SettleWrite(ResolveByHand(old(World()), a, commits), Forget(k))
    {
      var forget := ResolveAlertRow(a, commits);
      if forget.Some? { ForgetState(forget.value); }
    }

    method SilenceDeviceRows(d: nat, commits: bool) returns (committed: bool)
      modifies `alerts, `outbox, `alertStates, `owed
      ensures World() == SilenceDevice(old(World()), d, commits)
      ensures committed ==> ForgetDevice(d) in owed
    {
      committed := false;
      if commits {
        var store := LifecycleModel.Store(OutboxModel.Db(alerts, outbox), alertRules, alertStates, nextRule);
        DeviceFlagsOpen(store, d);
        committed := ResolveEachOrRollBack(DeviceFlags(store, d));
        if committed {
          alertStates := alertStates - StatesOfDevice(alertStates, d);
          owed := owed + multiset{ForgetDevice(d)};
        }
      }
    }

    method DropStates(write: Write)
      modifies `states
      ensures states == StatesLeft(old(states), write)
    {
      var todo := states.Keys;
      while todo != {}
        invariant todo <= old(states).Keys
        invariant states == map k | k in old(states) && (!Drops(write, k) || k in todo) :: old(states)[k]
        decreases todo
      {
        var k :| k in todo;
        todo := todo - {k};
        if Drops(write, k) { states := states - {k}; }
      }
    }

    method DropCooldowns(write: Write)
      modifies `lastNotified
      ensures lastNotified == CooldownsLeft(old(lastNotified), write)
    {
      var todo := lastNotified.Keys;
      while todo != {}
        invariant todo <= old(lastNotified).Keys
        invariant lastNotified
               == map k | k in old(lastNotified) && (!DropsCooldown(write, k) || k in todo) :: old(lastNotified)[k]
        decreases todo
      {
        var k :| k in todo;
        todo := todo - {k};
        if DropsCooldown(write, k) { lastNotified := lastNotified - {k}; }
      }
    }

    // ClearDeviceState and clearRuleStateMemory differ only in the keys they match.
    method ClearMemory(write: Write)
      requires write in owed && !write.Forget?
      modifies `states, `lastNotified, `owed
      ensures World() == SettleWrite(old(World()), write)
    {
      DropStates(write);
      DropCooldowns(write);
      owed := owed - multiset{write};
    }

    method ResolveDeviceAlerts(d: nat, commits: bool) returns (committed: bool)
      modifies this
      ensures var silenced := SilenceDevice(old(World()), d, commits);
              World() == if committed then SettleWrite(silenced, ForgetDevice(d)) else silenced
    {
      committed := SilenceDeviceRows(d, commits);
      if committed { ClearMemory(ForgetDevice(d)); }
    }

    // ---------- rules and reloading ----------

    // The rows of SELECT rule_id, device_id, MAX(triggered_at), folded into a map one alert at a time.
    method LoadLastNotified() returns (last: map<Key, nat>)
      ensures last == LoadLast(Store())
    {
      last := map[];
      var todo := alerts.Keys;
      var store := LifecycleModel.Store(OutboxModel.Db(alerts, outbox), alertRules, alertStates, nextRule);
      while todo != {}
        invariant todo <= alerts.Keys
        invariant forall k :: k in last <==> exists a :: a !in todo && Eligible(store, a, k)
        invariant forall k :: k in last ==>
                    && (exists a :: a !in todo && Eligible(store, a, k) && alerts[a].triggeredAt == last[k])
                    && (forall a :: a !in todo && Eligible(store, a, k) ==> alerts[a].triggeredAt <= last[k])
        decreases todo
      {
        var a :| a in todo;
        ghost var rest := todo - {a};
        var alert := alerts[a];
        ghost var before := last;
        if alert.rule.Some? {
          var k := Key(alert.rule.value, alert.device);
          if Eligible(store, a, k) && (k !in last || last[k] < alert.triggeredAt) {
            last := last[k := alert.triggeredAt];
          }
        }
        forall k ensures k in last <==> exists b :: b !in rest && Eligible(store, b, k) {
          if k in before { var b :| b !in todo && Eligible(store, b, k); assert b !in rest; }
        }
        forall k | k in last
          ensures exists b :: b !in rest && Eligible(store, b, k) && alerts[b].triggeredAt == last[k]
        {
          if k in before && last[k] == before[k] {
            var b :| b !in todo && Eligible(store, b, k) && alerts[b].triggeredAt == before[k];
            assert b !in rest;
          } else {
            assert a !in rest && Eligible(store, a, k);
          }
        }
        todo := todo - {a};
      }
      LatestUnique(store, last);
    }

    // The three queries of a reload; the ghost number tells concurrent reloads apart.
    method QueryRules() returns (newRules: map<nat, Rule>)
      modifies `loads
      ensures World() == ReadRules(old(World()))
      ensures |loads| == |old(loads)| + 1 && loads[|old(loads)|] == Loading(1, Memory(newRules, map[], map[]), {})
    {
      var store := LifecycleModel.Store(OutboxModel.Db(alerts, outbox), alertRules, alertStates, nextRule);
      newRules := EnabledRules(store);
      loads := loads + [Loading(1, Memory(newRules, map[], map[]), {})];
    }

    method QueryStates(ghost i: nat) returns (newStates: map<Key, Occurrence>)
      requires AtStage(World(), i, 1)
      modifies `loads
      ensures World() == ReadStates(old(World()), i)
      ensures |loads| == |old(loads)| && AtStage(World(), i, 2)
      ensures loads[i].mem == old(loads)[i].mem.(states := newStates)
    {
      var store := LifecycleModel.Store(OutboxModel.Db(alerts, outbox), alertRules, alertStates, nextRule);
      newStates := EnabledStates(store);
      loads := loads[i := Loading(2, loads[i].mem.(states := newStates), alerts.Keys)];
    }

    method QueryCooldowns(ghost i: nat) returns (newLast: map<Key, nat>)
      requires AtStage(World(), i, 2)
      modifies `loads
      ensures World() == ReadLast(old(World()), i)
      ensures |loads| == |old(loads)| && AtStage(World(), i, 3)
      ensures loads[i].mem == old(loads)[i].mem.(last := newLast)
    {
      newLast := LoadLastNotified();
      loads := loads[i := loads[i].(stage := 3, mem := loads[i].mem.(last := newLast))];
    }

    // What a reload does under the lock.
    method InstallMaps(ghost i: nat, newRules: map<nat, Rule>, newStates: map<Key, Occurrence>, newLast: map<Key, nat>)
      requires AtStage(World(), i, 3) && loads[i].mem == Memory(newRules, newStates, newLast)
      modifies `rules, `states, `lastNotified, `loads
      ensures World() == Install(old(World()), i)
    {
      rules, states, lastNotified := newRules, newStates, newLast;
      loads := loads[i := loads[i].(stage := 4)];
    }

    method Reload()
      modifies `rules, `states, `lastNotified, `loads
      ensures World() == Reloaded(old(World()))
    {
      ghost var i := |loads|;
      var newRules := QueryRules();
      var newStates := QueryStates(i);
      var newLast := QueryCooldowns(i);
      InstallMaps(i, newRules, newStates, newLast);
    }

    // The UPDATE and the DELETE that end ensureRuntimeSchema.
    method MigrateSchema()
      modifies `alerts, `alertStates
      ensures Store() == Migrated(old(Store()))
    {
      var store := LifecycleModel.Store(OutboxModel.Db(alerts, outbox), alertRules, alertStates, nextRule);
      var ids := OpenOfDisabled(store);
      alerts := map a | a in alerts ::
        if a in ids then alerts[a].(status := Resolved, closing := AtStartup) else alerts[a];
      alertStates := map k | k in alertStates && (k.rule !in alertRules || alertRules[k.rule].rule.enabled)
                       :: alertStates[k];
    }

    // A new process: nothing but the tables survives.
    method Restart()
      modifies `alerts, `alertStates, `rules, `states, `lastNotified, `passRules, `eval, `owed, `loads
      ensures World() == Restarted(old(World()))
    {
      MigrateSchema();
      ghost var w := World();
      ReloadUninterrupted(w);
      Reload();
      assert World().mem == Load(w.store);
      passRules := map[];
      eval, owed, loads := Idle, multiset{}, [];
    }

    method ResetRuleStateTx(r: nat)
      requires r in alertRules
      modifies `alerts, `outbox, `alertStates
      ensures Store() == ResetRule(old(World()), r)
    {
      ResolveSetTx(OpenForRule(OutboxModel.Db(alerts, outbox), r), alertRules[r].rule.notifyRecovery);
      alertStates := alertStates - StatesOfRule(alertStates, r);
    }

    method CreateRuleRow(rule: Rule)
      modifies `alertRules, `nextRule
      ensures World() == LifecycleModel.CreateRule(old(World()), rule, true)
    {
      alertRules := alertRules[nextRule := RuleRow(rule, now)];
      nextRule := nextRule + 1;
    }

    method CreateRule(rule: Rule, commits: bool)
      modifies this
      ensures World() == if commits then Reloaded(LifecycleModel.CreateRule(old(World()), rule, true)) else old(World())
    {
      if !commits { return; }
      CreateRuleRow(rule);
      Reload();
    }

    method EditRuleRow(r: nat, rule: Rule)
      requires r in alertRules
      modifies `alerts, `outbox, `alertStates, `alertRules, `owed
      ensures World() == EditRule(old(World()), r, rule, true) && ForgetRule(r) in owed
    {
      ResetRuleStateTx(r);
      alertRules := alertRules[r := RuleRow(rule, now)];
      owed := owed + multiset{ForgetRule(r)};
    }

    // ON DELETE SET NULL
    method DetachAlerts(r: nat)
      modifies `alerts
      ensures Db() == DetachRule(old(Db()), r)
    {
      alerts := map a | a in alerts :: if alerts[a].rule == Some(r) then alerts[a].(rule := None) else alerts[a];
    }

    method RemoveRuleRow(r: nat)
      requires r in alertRules
      modifies `alerts, `outbox, `alertStates, `alertRules, `owed
      ensures World() == RemoveRule(old(World()), r, true) && ForgetRule(r) in owed
    {
      ResetRuleStateTx(r);
      DetachAlerts(r);
      alertRules := alertRules - {r};
      owed := owed + multiset{ForgetRule(r)};
    }

    method UpdateRule(r: nat, rule: Rule, commits: bool)
      modifies this
      ensures World() == if commits && r in old(alertRules)
                         then Reloaded(SettleWrite(EditRule(old(World()), r, rule, true), ForgetRule(r)))
                         else old(World())
    {
      if !commits || r !in alertRules { return; }
      EditRuleRow(r, rule);
      ClearMemory(ForgetRule(r));
      Reload();
    }

    method DeleteRule(r: nat, commits: bool)
      modifies this
      ensures World() == if commits && r in old(alertRules)
                         then Reloaded(SettleWrite(RemoveRule(old(World()), r, true), ForgetRule(r)))
                         else old(World())
    {
      if !commits || r !in alertRules { return; }
      RemoveRuleRow(r);
      ClearMemory(ForgetRule(r));
      Reload();
    }
  }
}
