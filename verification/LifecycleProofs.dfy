/**
 What the manager keeps over every interleaving: times and cooldowns without any condition, and at most one open
 alert per rule and device under the conditions that LifecycleExact shows to be exact.
 */
module LifecycleProofs {
  import opened Basics
  import opened OutboxModel
  import opened LifecycleModel

  // ---------- clocks and cooldowns ----------

  predicate RecordedBy(store: Store, a: nat, k: Key, t: nat) {
    a in store.core.alerts && Concerns(store.core.alerts[a], k) && store.core.alerts[a].triggeredAt >= t
  }

  // Some alert of the key opened at that time or later.
  ghost predicate Recorded(store: Store, k: Key, t: nat) { exists a :: RecordedBy(store, a, k, t) }

  ghost predicate CooldownOk(store: Store, k: Key, t: nat) {
    k.rule < store.nextRule && (k.rule in store.rules ==> Recorded(store, k, t))
  }

  // A copy of the tables, current or not: nothing in it is about a rule still to be created, and each of its
  // cooldowns stems from an alert.
  ghost predicate CopyOk(store: Store, mem: Memory) {
    && (forall r :: r in mem.rules ==> r < store.nextRule)
    && (forall k :: k in mem.states ==> k.rule < store.nextRule)
    && (forall k {:trigger k in mem.last} :: k in mem.last ==> CooldownOk(store, k, mem.last[k]))
  }

  ghost predicate LoadOk(store: Store, load: Loading) {
    CopyOk(store, load.mem) && load.known <= store.core.alerts.Keys
  }

  predicate AlertTimes(w: World, a: nat)
    requires a in w.store.core.alerts
  {
    var alert := w.store.core.alerts[a];
    alert.evaluatedAt <= alert.triggeredAt <= w.now && (alert.rule.Some? ==> alert.rule.value in w.store.rules)
  }

  ghost predicate EvalTimes(w: World) {
    match w.eval
    case Idle => true
    case Ready(t) => t.evaluatedAt == w.pass.now && t.key.rule < w.store.nextRule
    case Recording(k, at) => CooldownOk(w.store, k, at)
    case Dropping(k) => true
  }

  ghost predicate TimesOk(w: World) {
    && w.pass.now <= w.now
    && (forall r :: r in w.store.rules ==> r < w.store.nextRule && w.store.rules[r].updated <= w.now)
    && (forall k :: k in w.store.states ==> k.rule in w.store.rules)
    && (forall a {:trigger AlertTimes(w, a)} :: a in w.store.core.alerts ==> AlertTimes(w, a))
    && (forall r :: r in w.pass.rules ==> r < w.store.nextRule)
    && EvalTimes(w)
    && CopyOk(w.store, w.mem)
    && (forall i {:trigger w.loads[i]} :: 0 <= i < |w.loads| ==> LoadOk(w.store, w.loads[i]))
  }

  // No rule comes back, and no alert disappears or changes its history.
  predicate Grows(store: Store, store': Store) {
    && store.nextRule <= store'.nextRule
    && (forall r :: r in store'.rules ==> r in store.rules || r >= store.nextRule)
    && (forall a {:trigger a in store.core.alerts} {:trigger a in store'.core.alerts} :: a in store.core.alerts ==>
          && a in store'.core.alerts
          && store'.core.alerts[a].device == store.core.alerts[a].device
          && store'.core.alerts[a].triggeredAt == store.core.alerts[a].triggeredAt
          && (store.core.alerts[a].rule.Some? && store.core.alerts[a].rule.value in store'.rules
              ==> store'.core.alerts[a].rule == store.core.alerts[a].rule))
  }

  lemma CooldownStays(store: Store, store': Store, k: Key, t: nat)
    requires Grows(store, store') && CooldownOk(store, k, t)
    ensures CooldownOk(store', k, t)
  {
    if k.rule in store'.rules {
      var a :| RecordedBy(store, a, k, t);
      assert RecordedBy(store', a, k, t);
    }
  }

  lemma CopyStays(store: Store, store': Store, mem: Memory)
    requires Grows(store, store') && CopyOk(store, mem)
    ensures CopyOk(store', mem)
  {
    forall k | k in mem.last ensures CooldownOk(store', k, mem.last[k]) {
      CooldownStays(store, store', k, mem.last[k]);
    }
  }

  lemma CopiesStay(w: World, store': Store)
    requires TimesOk(w) && Grows(w.store, store')
    ensures CopyOk(store', w.mem)
    ensures forall i {:trigger w.loads[i]} :: 0 <= i < |w.loads| ==> LoadOk(store', w.loads[i])
  {
    CopyStays(w.store, store', w.mem);
    forall i | 0 <= i < |w.loads| ensures LoadOk(store', w.loads[i]) {
      assert LoadOk(w.store, w.loads[i]);
      CopyStays(w.store, store', w.loads[i].mem);
    }
  }

  // What a query returns is a copy in that sense.
  lemma LoadedOk(w: World)
    requires TimesOk(w)
    ensures CopyOk(w.store, Load(w.store))
  {
    forall k | k in LoadLast(w.store) ensures CooldownOk(w.store, k, LoadLast(w.store)[k]) {
      assert IsLatest(w.store, k, LoadLast(w.store)[k]);
      var a :| Eligible(w.store, a, k) && w.store.core.alerts[a].triggeredAt == LoadLast(w.store)[k];
      assert RecordedBy(w.store, a, k, LoadLast(w.store)[k]);
    }
  }

  // An operation on the tables and on what is owed, that opens no alert.
  lemma TimesFrame(w: World, w': World)
    requires TimesOk(w) && Grows(w.store, w'.store)
    requires w'.now >= w.now && w'.mem == w.mem && w'.loads == w.loads && w'.pass == w.pass
    requires w'.eval == w.eval || !(w'.eval.Ready? || w'.eval.Recording?)
    requires forall r :: r in w'.store.rules ==> r < w'.store.nextRule && w'.store.rules[r].updated <= w'.now
    requires forall k :: k in w'.store.states ==> k.rule in w'.store.rules
    requires forall a {:trigger AlertTimes(w', a)} :: a in w'.store.core.alerts ==> AlertTimes(w', a)
    ensures TimesOk(w')
  {
    CopiesStay(w, w'.store);
    if w'.eval.Recording? { CooldownStays(w.store, w'.store, w.eval.key, w.eval.at); }
  }

  lemma KeepsTimesObserve(w: World, r: nat, d: nat, ok: bool)
    requires TimesOk(w)
    ensures TimesOk(ObserveCondition(w, r, d, ok))
  {
    var w' := ObserveCondition(w, r, d, ok);
    CopiesStay(w, w'.store);
    forall a | a in w'.store.core.alerts ensures AlertTimes(w', a) { assert AlertTimes(w, a); }
  }

  lemma KeepsTimesFire(w: World, a: nat, ok: bool)
    requires TimesOk(w)
    ensures TimesOk(FireAlert(w, a, ok))
  {
    var w' := FireAlert(w, a, ok);
    forall b | b in w'.store.core.alerts ensures AlertTimes(w', b) {
      if b in w.store.core.alerts { assert AlertTimes(w, b); }
    }
    CopiesStay(w, w'.store);
    if Fires(w, a, ok) { assert RecordedBy(w'.store, a, w.eval.attempt.key, w.eval.attempt.evaluatedAt); }
  }

  lemma SameTables(w: World, w': World)
    requires TimesOk(w) && w'.store == w.store && w'.now == w.now
    ensures forall a {:trigger AlertTimes(w', a)} :: a in w'.store.core.alerts ==> AlertTimes(w', a)
  {
    forall a | a in w'.store.core.alerts ensures AlertTimes(w', a) { assert AlertTimes(w, a); }
  }

  lemma KeepsTimesEvaluator(w: World)
    requires TimesOk(w)
    ensures TimesOk(RecordAlert(w)) && TimesOk(DropState(w))
  {
    SameTables(w, RecordAlert(w));
    SameTables(w, DropState(w));
  }

  lemma KeepsTimesSettle(w: World, write: Write)
    requires TimesOk(w)
    ensures TimesOk(SettleWrite(w, write))
  {
    SameTables(w, SettleWrite(w, write));
  }

  lemma KeepsTimesInstall(w: World, i: nat)
    requires TimesOk(w)
    ensures TimesOk(Install(w, i))
  {
    SameTables(w, Install(w, i));
    if AtStage(w, i, 3) { assert LoadOk(w.store, w.loads[i]); }
  }

  // A reload that reads what the tables determine.
  lemma NextQuery(w: World, w': World, i: nat)
    requires TimesOk(w) && w'.store == w.store && w'.now == w.now && w'.mem == w.mem && w'.pass == w.pass
    requires w'.eval == w.eval && i < |w'.loads| && |w.loads| <= |w'.loads| && LoadOk(w.store, w'.loads[i])
    requires forall j {:trigger w'.loads[j]} :: 0 <= j < |w'.loads| && j != i
               ==> j < |w.loads| && w'.loads[j] == w.loads[j]
    ensures TimesOk(w')
  {
    SameTables(w, w');
    forall j | 0 <= j < |w'.loads| ensures LoadOk(w'.store, w'.loads[j]) {
      var load := w'.loads[j];
      if j != i { assert load == w.loads[j]; }
    }
  }

  lemma KeepsTimesQueries(w: World, i: nat)
    requires TimesOk(w)
    ensures TimesOk(ReadRules(w)) && TimesOk(ReadStates(w, i)) && TimesOk(ReadLast(w, i))
  {
    LoadedOk(w);
    NextQuery(w, ReadRules(w), |w.loads|);
    if i < |w.loads| {
      assert LoadOk(w.store, w.loads[i]);
      NextQuery(w, ReadStates(w, i), i);
      NextQuery(w, ReadLast(w, i), i);
    }
  }

  lemma KeepsTimesRestart(w: World)
    requires TimesOk(w)
    ensures TimesOk(Restarted(w))
  {
    KeepsTimesMigrate(w);
    var migrated := w.(store := Migrated(w.store));
    LoadedOk(migrated);
    SameTables(migrated, Restarted(w));
  }

  // Closing, acknowledging and delivering leave the times of every alert as they are.
  lemma TimesOfTables(w: World, w': World)
    requires TimesOk(w) && w'.store.rules == w.store.rules && w'.store.nextRule == w.store.nextRule
    requires w'.now == w.now && w'.mem == w.mem && w'.loads == w.loads && w'.pass == w.pass
    requires w'.eval == w.eval || w'.eval.Dropping?
    requires forall k :: k in w'.store.states ==> k in w.store.states
    requires w'.store.core.alerts.Keys == w.store.core.alerts.Keys
    requires forall a :: a in w.store.core.alerts ==>
               && w'.store.core.alerts[a].rule == w.store.core.alerts[a].rule
               && w'.store.core.alerts[a].device == w.store.core.alerts[a].device
               && w'.store.core.alerts[a].evaluatedAt == w.store.core.alerts[a].evaluatedAt
               && w'.store.core.alerts[a].triggeredAt == w.store.core.alerts[a].triggeredAt
    ensures TimesOk(w')
  {
    forall a | a in w'.store.core.alerts ensures AlertTimes(w', a) { assert AlertTimes(w, a); }
    TimesFrame(w, w');
  }

  lemma KeepsTimesClear(w: World, r: nat, d: nat, ok: bool)
    requires TimesOk(w)
    ensures TimesOk(ClearCondition(w, r, d, ok))
  {
    TimesOfTables(w, ClearCondition(w, r, d, ok));
  }

  lemma KeepsTimesResolve(w: World, a: nat, ok: bool)
    requires TimesOk(w)
    ensures TimesOk(ResolveByHand(w, a, ok))
  {
    TimesOfTables(w, ResolveByHand(w, a, ok));
  }

  lemma KeepsTimesSilence(w: World, d: nat, ok: bool)
    requires TimesOk(w)
    ensures TimesOk(SilenceDevice(w, d, ok))
  {
    TimesOfTables(w, SilenceDevice(w, d, ok));
  }

  lemma KeepsTimesAcknowledge(w: World, a: nat)
    requires TimesOk(w)
    ensures TimesOk(AcknowledgeAlert(w, a))
  {
    TimesOfTables(w, AcknowledgeAlert(w, a));
  }

  lemma KeepsTimesDelivery(w: World, step: Step)
    requires TimesOk(w)
    ensures TimesOk(Delivered(w, step))
  {
    DeliveryKeepsAlerts(w, step);
    TimesOfTables(w, Delivered(w, step));
  }

  lemma KeepsTimesMigrate(w: World)
    requires TimesOk(w)
    ensures TimesOk(w.(store := Migrated(w.store)))
  {
    TimesOfTables(w, w.(store := Migrated(w.store)));
  }

  lemma KeepsTimesReset(w: World, r: nat)
    requires TimesOk(w) && r in w.store.rules
    ensures TimesOk(w.(store := ResetRule(w, r)))
  {
    TimesOfTables(w, w.(store := ResetRule(w, r)));
  }

  lemma KeepsTimesEdit(w: World, r: nat, rule: Rule, ok: bool)
    requires TimesOk(w)
    ensures TimesOk(EditRule(w, r, rule, ok))
  {
    if ok && r in w.store.rules {
      var w1, w' := w.(store := ResetRule(w, r)), EditRule(w, r, rule, ok);
      KeepsTimesReset(w, r);
      forall a | a in w'.store.core.alerts ensures AlertTimes(w', a) { assert AlertTimes(w1, a); }
      TimesFrame(w1, w');
    }
  }

  lemma KeepsTimesRemove(w: World, r: nat, ok: bool)
    requires TimesOk(w)
    ensures TimesOk(RemoveRule(w, r, ok))
  {
    if ok && r in w.store.rules {
      var w1, w' := w.(store := ResetRule(w, r)), RemoveRule(w, r, ok);
      KeepsTimesReset(w, r);
      forall a | a in w'.store.core.alerts ensures AlertTimes(w', a) { assert AlertTimes(w1, a); }
      TimesFrame(w1, w');
    }
  }

  lemma KeepsTimesCreate(w: World, rule: Rule, ok: bool)
    requires TimesOk(w)
    ensures TimesOk(CreateRule(w, rule, ok))
  {
    var w' := CreateRule(w, rule, ok);
    forall a | a in w'.store.core.alerts ensures AlertTimes(w', a) { assert AlertTimes(w, a); }
    TimesFrame(w, w');
  }

  lemma KeepsTimesPass(w: World)
    requires TimesOk(w)
    ensures TimesOk(StartPass(w)) && TimesOk(Clocked(w))
  {
    SameTables(w, StartPass(w));
    SameTables(w, Clocked(w));
  }

  lemma KeepsTimesWait(w: World, d: nat)
    requires TimesOk(w)
    ensures TimesOk(w.(now := w.now + d))
  {
    var w' := w.(now := w.now + d);
    forall a | a in w'.store.core.alerts ensures AlertTimes(w', a) { assert AlertTimes(w, a); }
  }

  predicate OfEvaluator(act: Action) {
    act.BeginPass? || act.ReadClock? || act.Observe? || act.Fire? || act.Record? || act.Clear? || act.Drop?
  }

  predicate OfOperator(act: Action) {
    act.Acknowledge? || act.Resolve? || act.Silence? || act.Edit? || act.Remove? || act.Create?
  }

  lemma EvaluatorKeepsTimes(w: World, act: Action)
    requires TimesOk(w) && OfEvaluator(act)
    ensures TimesOk(Do(w, act))
  {
    match act
    case BeginPass => KeepsTimesPass(w);
    case ReadClock => KeepsTimesPass(w);
    case Observe(r, d, ok) => KeepsTimesObserve(w, r, d, ok);
    case Fire(a, ok) => KeepsTimesFire(w, a, ok);
    case Clear(r, d, ok) => KeepsTimesClear(w, r, d, ok);
    case _ => KeepsTimesEvaluator(w);
  }

  lemma OperatorKeepsTimes(w: World, act: Action)
    requires TimesOk(w) && OfOperator(act)
    ensures TimesOk(Do(w, act))
  {
    match act
    case Acknowledge(a) => KeepsTimesAcknowledge(w, a);
    case Resolve(a, ok) => KeepsTimesResolve(w, a, ok);
    case Silence(d, ok) => KeepsTimesSilence(w, d, ok);
    case Edit(r, rule, ok) => KeepsTimesEdit(w, r, rule, ok);
    case Remove(r, ok) => KeepsTimesRemove(w, r, ok);
    case Create(rule, ok) => KeepsTimesCreate(w, rule, ok);
  }

  lemma KeepsTimes(w: World, act: Action)
    requires TimesOk(w)
    ensures TimesOk(Do(w, act))
  {
    if OfEvaluator(act) {
      EvaluatorKeepsTimes(w, act);
    } else if OfOperator(act) {
      OperatorKeepsTimes(w, act);
    } else {
      match act
      case Wait(d) => KeepsTimesWait(w, d);
      case Settle(write) => KeepsTimesSettle(w, write);
      case Installing(i) => KeepsTimesInstall(w, i);
      case LoadRules => KeepsTimesQueries(w, 0);
      case LoadStates(i) => KeepsTimesQueries(w, i);
      case LoadCooldowns(i) => KeepsTimesQueries(w, i);
      case Restart => KeepsTimesRestart(w);
      case Deliver(step) => KeepsTimesDelivery(w, step);
    }
  }

  lemma {:induction false} AllKeepsTimes(w: World, acts: seq<Action>)
    requires TimesOk(w)
    ensures TimesOk(DoAll(w, acts))
    decreases |acts|
  {
    if acts != [] {
      KeepsTimes(w, acts[0]);
      AllKeepsTimes(Do(w, acts[0]), acts[1..]);
    }
  }

  // Over every history: a reload keeps each cooldown in memory that is no older than the last edit of its rule,
  // and never dates it earlier.
  lemma ReloadKeepsCooldowns(history: seq<Action>, k: Key)
    requires var w := DoAll(Start(), history);
             k in w.mem.last && k.rule in w.store.rules && w.store.rules[k.rule].updated <= w.mem.last[k]
    ensures var w := DoAll(Start(), history);
            k in LoadLast(w.store) && LoadLast(w.store)[k] >= w.mem.last[k]
  {
    var w := DoAll(Start(), history);
    AllKeepsTimes(Start(), history);
    assert CooldownOk(w.store, k, w.mem.last[k]);
    var a :| RecordedBy(w.store, a, k, w.mem.last[k]);
    assert Eligible(w.store, a, k);
    assert IsLatest(w.store, k, LoadLast(w.store)[k]);
  }

  // ---------- one open alert ----------

  predicate Enabled(store: Store, r: nat) { r in store.rules && store.rules[r].rule.enabled }

  predicate NotifiedIn(states: map<Key, Occurrence>, k: Key) { k in states && states[k].notified }

  predicate OpenFor(alerts: map<nat, Alert>, a: nat, k: Key) {
    a in alerts && IsOpen(alerts[a]) && Concerns(alerts[a], k)
  }

  ghost predicate HasOpen(alerts: map<nat, Alert>, k: Key) { exists a :: OpenFor(alerts, a, k) }

  // At most one open alert for each rule and device.
  ghost predicate OneOpen(alerts: map<nat, Alert>) {
    forall a, b, k :: OpenFor(alerts, a, k) && OpenFor(alerts, b, k) ==> a == b
  }

  // Whether the current or the next pass looks at the rule.
  predicate Watched(w: World, r: nat) { r in w.mem.rules || r in w.pass.rules }

  predicate Remembers(eval: Eval, states: map<Key, Occurrence>, k: Key) {
    NotifiedIn(states, k) || (eval.Recording? && eval.key == k && k in states)
  }

  // The inductive form of "one open alert": the state of an open alert of an enabled rule says notified, in the
  // table, and in memory as long as a pass looks at it.
  ghost predicate KeyOk(w: World, k: Key) {
    HasOpen(w.store.core.alerts, k) && Enabled(w.store, k.rule) ==>
      NotifiedIn(w.store.states, k) && (Watched(w, k.rule) ==> Remembers(w.eval, w.mem.states, k))
  }

  ghost predicate EvalOk(w: World) {
    match w.eval
    case Ready(t) =>
      && !HasOpen(w.store.core.alerts, t.key) && t.key.rule in w.pass.rules
      && (Enabled(w.store, t.key.rule) && t.key in w.store.states ==> t.key in w.mem.states)
    case Dropping(k) => Enabled(w.store, k.rule) ==> !HasOpen(w.store.core.alerts, k)
    case _ => true
  }

  ghost predicate Safe(w: World) {
    && (forall a :: a in w.store.core.alerts && IsOpen(w.store.core.alerts[a])
                    ==> w.store.core.alerts[a].rule.Some? && w.store.core.alerts[a].rule.value in w.store.rules)
    && OneOpen(w.store.core.alerts) && EvalOk(w)
    && forall k {:trigger KeyOk(w, k)} :: KeyOk(w, k)
  }

  // Whether that memory would still know the key's open alert, and the occurrence about to become one, if the tables
  // do and a pass looks at the rule.
  ghost predicate StillKnown(w: World, mem: Memory, k: Key) {
    Enabled(w.store, k.rule) && (k.rule in mem.rules || k.rule in w.pass.rules) ==>
      && (HasOpen(w.store.core.alerts, k) && NotifiedIn(w.store.states, k) ==> Remembers(w.eval, mem.states, k))
      && (w.eval.Ready? && w.eval.attempt.key == k && k in w.store.states ==> k in mem.states)
  }

  ghost predicate KeepsOpen(w: World, mem: Memory) {
    forall k {:trigger StillKnown(w, mem, k)} :: StillKnown(w, mem, k)
  }

  // What the interleaving has to respect. No pass starts an attempt for a rule that was disabled meanwhile and
  // still has an open alert; no alert is committed whose state row was deleted since its first half; no memory write
  // comes so late that it forgets an open alert.
  ghost predicate Undisturbed(w: World, act: Action) {
    match act
    case Observe(r, d, ok) =>
      w.eval == Idle && ok && r in w.pass.rules && Disabled(w.store, r) && HasOpen(w.store.core.alerts, Key(r, d))
      ==> !Ripe(w.pass.rules[r], w.pass.now, Found(w, Key(r, d)), Lookup(w.mem.last, Key(r, d)))
    case Fire(a, ok) => Fires(w, a, ok) && Enabled(w.store, w.eval.attempt.key.rule)
                        ==> w.eval.attempt.key in w.store.states
    case Settle(write) => write in w.owed ==> KeepsOpen(w, Written(w.mem, write))
    case Installing(i) => AtStage(w, i, 3) ==> KeepsOpen(w, w.loads[i].mem)
    case _ => true
  }

  // Alerts only close, and rules are neither added nor enabled: rows may go, memory stays.
  lemma ClosingKeepsSafe(w: World, w': World)
    requires Safe(w) && w'.mem == w.mem && w'.pass == w.pass
    requires w'.eval == w.eval || w'.eval == Idle || (w'.eval.Dropping? && w.eval == Idle
               && (Enabled(w'.store, w'.eval.key.rule) ==> !HasOpen(w'.store.core.alerts, w'.eval.key)))
    requires forall k, a :: OpenFor(w'.store.core.alerts, a, k) ==> OpenFor(w.store.core.alerts, a, k)
    requires forall a :: a in w'.store.core.alerts && IsOpen(w'.store.core.alerts[a])
                         ==> w'.store.core.alerts[a].rule.Some? && w'.store.core.alerts[a].rule.value in w'.store.rules
    requires forall k :: HasOpen(w'.store.core.alerts, k) && Enabled(w'.store, k.rule)
                         ==> Enabled(w.store, k.rule) && k in w'.store.states && k in w.store.states
                             && w'.store.states[k] == w.store.states[k]
    requires forall k: Key :: Enabled(w'.store, k.rule) && k in w'.store.states
                         ==> Enabled(w.store, k.rule) && k in w.store.states
    requires w.eval.Recording? ==> w'.eval == w.eval
    ensures Safe(w')
  {
    forall k | HasOpen(w'.store.core.alerts, k) ensures HasOpen(w.store.core.alerts, k) {
      var a :| OpenFor(w'.store.core.alerts, a, k);
      assert OpenFor(w.store.core.alerts, a, k);
    }
    forall k ensures KeyOk(w', k) { assert KeyOk(w, k); }
  }

  lemma KeepsSafeObserve(w: World, r: nat, d: nat, ok: bool)
    requires Safe(w) && Undisturbed(w, Observe(r, d, ok))
    ensures Safe(ObserveCondition(w, r, d, ok))
  {
    var w' := ObserveCondition(w, r, d, ok);
    if w' != w {
      var key := Key(r, d);
      assert KeyOk(w, key);
      if HasOpen(w.store.core.alerts, key) {
        var a :| OpenFor(w.store.core.alerts, a, key);
        assert r in w.store.rules;
      }
      forall k ensures KeyOk(w', k) { assert KeyOk(w, k); }
    }
  }

  lemma KeepsSafeFire(w: World, a: nat, ok: bool)
    requires Safe(w) && Undisturbed(w, Fire(a, ok))
    ensures Safe(FireAlert(w, a, ok))
  {
    var w' := FireAlert(w, a, ok);
    if Fires(w, a, ok) {
      var key := w.eval.attempt.key;
      forall k, b | OpenFor(w'.store.core.alerts, b, k)
        ensures (b == a && k == key) || OpenFor(w.store.core.alerts, b, k)
      {}
      assert !HasOpen(w.store.core.alerts, key);
      forall k ensures KeyOk(w', k) {
        assert KeyOk(w, k);
        if k != key && HasOpen(w'.store.core.alerts, k) {
          var b :| OpenFor(w'.store.core.alerts, b, k);
          assert OpenFor(w.store.core.alerts, b, k);
        }
      }
    } else if w.eval.Ready? {
      forall k ensures KeyOk(w', k) { assert KeyOk(w, k); }
    }
  }

  lemma KeepsSafeRecord(w: World)
    requires Safe(w)
    ensures Safe(RecordAlert(w))
  {
    var w' := RecordAlert(w);
    forall k ensures KeyOk(w', k) { assert KeyOk(w, k); }
  }

  lemma KeepsSafeDrop(w: World)
    requires Safe(w)
    ensures Safe(DropState(w))
  {
    var w' := DropState(w);
    forall k ensures KeyOk(w', k) { assert KeyOk(w, k); }
  }

  lemma KeepsSafeClear(w: World, r: nat, d: nat, ok: bool)
    requires Safe(w)
    ensures Safe(ClearCondition(w, r, d, ok))
  {
    var w' := ClearCondition(w, r, d, ok);
    if w' != w {
      var key := Key(r, d);
      forall k | HasOpen(w'.store.core.alerts, k) && Enabled(w'.store, k.rule)
        ensures k != key && NotifiedIn(w.store.states, k)
      {
        var b :| OpenFor(w'.store.core.alerts, b, k);
        assert OpenFor(w.store.core.alerts, b, k) && KeyOk(w, k);
        assert w.mem.states[key].notified ==> b !in OpenForKey(w.store.core, key);
      }
      ClosingKeepsSafe(w, w');
    }
  }

  lemma KeepsSafeResolve(w: World, a: nat, ok: bool)
    requires Safe(w)
    ensures Safe(ResolveByHand(w, a, ok))
  {
    var w' := ResolveByHand(w, a, ok);
    if w' != w {
      var alert := w.store.core.alerts[a];
      var key := Key(alert.rule.value, alert.device);
      forall k | HasOpen(w'.store.core.alerts, k) && Enabled(w'.store, k.rule)
        ensures k != key && NotifiedIn(w.store.states, k)
      {
        var b :| OpenFor(w'.store.core.alerts, b, k);
        assert OpenFor(w.store.core.alerts, b, k) && KeyOk(w, k);
        assert OpenFor(w.store.core.alerts, a, key) && b != a;
      }
      ClosingKeepsSafe(w, w');
    }
  }

  lemma KeepsSafeSilence(w: World, d: nat, ok: bool)
    requires Safe(w)
    ensures Safe(SilenceDevice(w, d, ok))
  {
    var w' := SilenceDevice(w, d, ok);
    if w' != w {
      forall k | HasOpen(w'.store.core.alerts, k) && Enabled(w'.store, k.rule)
        ensures k.device != d && NotifiedIn(w.store.states, k)
      {
        var b :| OpenFor(w'.store.core.alerts, b, k);
        assert OpenFor(w.store.core.alerts, b, k) && KeyOk(w, k);
        assert b !in OpenForDevice(w.store.core, d);
      }
      ClosingKeepsSafe(w, w');
    }
  }

  // A rule is edited or removed: its alerts close, its rows go, the others stay.
  lemma ResetKeepsSafe(w: World, w': World, r: nat)
    requires Safe(w) && w'.mem == w.mem && w'.pass == w.pass && w'.eval == w.eval
    requires forall k, b :: OpenFor(w'.store.core.alerts, b, k) ==> k.rule != r && OpenFor(w.store.core.alerts, b, k)
    requires forall a :: a in w'.store.core.alerts && IsOpen(w'.store.core.alerts[a])
               ==> w'.store.core.alerts[a].rule.Some? && w'.store.core.alerts[a].rule.value in w'.store.rules
    requires forall k: Key :: k.rule != r ==> (Enabled(w'.store, k.rule) <==> Enabled(w.store, k.rule))
    requires w'.store.states == w.store.states - StatesOfRule(w.store.states, r)
    ensures Safe(w')
  {
    forall k ensures KeyOk(w', k) {
      assert KeyOk(w, k);
      if HasOpen(w'.store.core.alerts, k) {
        var b :| OpenFor(w'.store.core.alerts, b, k);
        assert OpenFor(w.store.core.alerts, b, k);
      }
    }
  }

  lemma ResetCloses(w: World, r: nat, a: nat)
    requires r in w.store.rules && a in w.store.core.alerts && IsOpen(ResetRule(w, r).core.alerts[a])
    ensures w.store.core.alerts[a].rule != Some(r) && ResetRule(w, r).core.alerts[a] == w.store.core.alerts[a]
  {
    assert a !in OpenForRule(w.store.core, r);
  }

  lemma KeepsSafeEdit(w: World, r: nat, rule: Rule, ok: bool)
    requires Safe(w)
    ensures Safe(EditRule(w, r, rule, ok))
  {
    if ok && r in w.store.rules {
      var w' := EditRule(w, r, rule, ok);
      forall a | a in w.store.core.alerts && IsOpen(w'.store.core.alerts[a])
        ensures w.store.core.alerts[a].rule != Some(r) && w'.store.core.alerts[a] == w.store.core.alerts[a]
      {
        ResetCloses(w, r, a);
      }
      ResetKeepsSafe(w, w', r);
    }
  }

  lemma KeepsSafeRemove(w: World, r: nat, ok: bool)
    requires Safe(w)
    ensures Safe(RemoveRule(w, r, ok))
  {
    if ok && r in w.store.rules {
      var w' := RemoveRule(w, r, ok);
      forall a | a in w.store.core.alerts && IsOpen(w'.store.core.alerts[a])
        ensures w.store.core.alerts[a].rule != Some(r) && w'.store.core.alerts[a] == w.store.core.alerts[a]
      {
        ResetCloses(w, r, a);
      }
      ResetKeepsSafe(w, w', r);
    }
  }

  lemma KeepsSafeCreate(w: World, rule: Rule, ok: bool)
    requires Safe(w) && TimesOk(w)
    ensures Safe(CreateRule(w, rule, ok))
  {
    var w' := CreateRule(w, rule, ok);
    forall k | HasOpen(w.store.core.alerts, k) ensures k.rule in w.store.rules {
      var a :| OpenFor(w.store.core.alerts, a, k);
      assert AlertTimes(w, a);
    }
    forall k ensures KeyOk(w', k) { assert KeyOk(w, k); }
  }

  lemma WriteKeepsSafe(w: World, w': World)
    requires Safe(w) && w'.store == w.store && w'.pass == w.pass && w'.eval == w.eval && KeepsOpen(w, w'.mem)
    ensures Safe(w')
  {
    forall k ensures KeyOk(w', k) { assert KeyOk(w, k) && StillKnown(w, w'.mem, k); }
    if w.eval.Ready? { assert StillKnown(w, w'.mem, w.eval.attempt.key); }
  }

  lemma KeepsSafeRestart(w: World)
    requires Safe(w)
    ensures Safe(Restarted(w))
  {
    var migrated, w' := w.(store := Migrated(w.store)), Restarted(w);
    MigrateKeepsSafe(w);
    forall k ensures KeyOk(w', k) { assert KeyOk(migrated, k); }
  }

  lemma MigrateKeepsSafe(w: World)
    requires Safe(w)
    ensures Safe(w.(store := Migrated(w.store)))
  {
    var w' := w.(store := Migrated(w.store));
    forall k | HasOpen(w'.store.core.alerts, k) && Enabled(w'.store, k.rule) ensures NotifiedIn(w.store.states, k) {
      var b :| OpenFor(w'.store.core.alerts, b, k);
      assert OpenFor(w.store.core.alerts, b, k) && KeyOk(w, k);
    }
    ClosingKeepsSafe(w, w');
  }

  lemma KeepsSafePass(w: World)
    requires Safe(w)
    ensures Safe(StartPass(w)) && Safe(Clocked(w))
  {
    forall k ensures KeyOk(StartPass(w), k) && KeyOk(Clocked(w), k) { assert KeyOk(w, k); }
  }

  // Acknowledging and delivering neither open nor close an alert.
  lemma SameOpenKeepsSafe(w: World, w': World)
    requires Safe(w) && w'.store.rules == w.store.rules && w'.store.states == w.store.states
    requires w'.mem == w.mem && w'.pass == w.pass && w'.eval == w.eval
    requires forall a, k :: OpenFor(w'.store.core.alerts, a, k) <==> OpenFor(w.store.core.alerts, a, k)
    requires forall a :: a in w'.store.core.alerts && IsOpen(w'.store.core.alerts[a])
               ==> w'.store.core.alerts[a].rule.Some? && w'.store.core.alerts[a].rule.value in w'.store.rules
    ensures Safe(w')
  {
    forall k ensures HasOpen(w'.store.core.alerts, k) <==> HasOpen(w.store.core.alerts, k) {
      if a :| OpenFor(w.store.core.alerts, a, k) { assert OpenFor(w'.store.core.alerts, a, k); }
      if a :| OpenFor(w'.store.core.alerts, a, k) { assert OpenFor(w.store.core.alerts, a, k); }
    }
    forall k ensures KeyOk(w', k) { assert KeyOk(w, k); }
  }

  lemma KeepsSafeAcknowledge(w: World, a: nat)
    requires Safe(w)
    ensures Safe(AcknowledgeAlert(w, a))
  {
    SameOpenKeepsSafe(w, AcknowledgeAlert(w, a));
  }

  lemma KeepsSafeDelivery(w: World, step: Step)
    requires Safe(w)
    ensures Safe(Delivered(w, step))
  {
    DeliveryKeepsAlerts(w, step);
    SameOpenKeepsSafe(w, Delivered(w, step));
  }

  lemma DeliveryKeepsAlerts(w: World, step: Step)
    ensures var w' := Delivered(w, step);
            w' == w.(store := w.store.(core := w'.store.core), issued := w'.issued)
            && w'.store.core.alerts == w.store.core.alerts
  {}

  lemma KeepsSafeLoad(w: World, i: nat)
    requires Safe(w)
    ensures Safe(ReadRules(w)) && Safe(ReadStates(w, i)) && Safe(ReadLast(w, i))
  {
    forall k ensures KeyOk(ReadRules(w), k) && KeyOk(ReadStates(w, i), k) && KeyOk(ReadLast(w, i), k) {
      assert KeyOk(w, k);
    }
  }

  lemma KeepsSafeWait(w: World, d: nat)
    requires Safe(w)
    ensures Safe(w.(now := w.now + d))
  {
    var w' := w.(now := w.now + d);
    forall k ensures KeyOk(w', k) { assert KeyOk(w, k); }
  }

  lemma KeepsSafe(w: World, act: Action)
    requires Safe(w) && TimesOk(w) && Undisturbed(w, act)
    ensures Safe(Do(w, act))
  {
    match act
    case Observe(r, d, ok) => KeepsSafeObserve(w, r, d, ok);
    case Fire(a, ok) => KeepsSafeFire(w, a, ok);
    case Record => KeepsSafeRecord(w);
    case Clear(r, d, ok) => KeepsSafeClear(w, r, d, ok);
    case Drop => KeepsSafeDrop(w);
    case Resolve(a, ok) => KeepsSafeResolve(w, a, ok);
    case Silence(d, ok) => KeepsSafeSilence(w, d, ok);
    case Edit(r, rule, ok) => KeepsSafeEdit(w, r, rule, ok);
    case Remove(r, ok) => KeepsSafeRemove(w, r, ok);
    case Create(rule, ok) => KeepsSafeCreate(w, rule, ok);
    case Settle(write) => if write in w.owed { WriteKeepsSafe(w, SettleWrite(w, write)); }
    case Installing(i) => if AtStage(w, i, 3) { WriteKeepsSafe(w, Install(w, i)); }
    case Restart => KeepsSafeRestart(w);
    case Wait(d) => KeepsSafeWait(w, d);
    case BeginPass => KeepsSafePass(w);
    case ReadClock => KeepsSafePass(w);
    case Acknowledge(a) => KeepsSafeAcknowledge(w, a);
    case Deliver(step) => KeepsSafeDelivery(w, step);
    case LoadRules => KeepsSafeLoad(w, 0);
    case LoadStates(i) => KeepsSafeLoad(w, i);
    case LoadCooldowns(i) => KeepsSafeLoad(w, i);
  }

  ghost predicate AllUndisturbed(w: World, acts: seq<Action>)
    decreases |acts|
  {
    acts == [] || (Undisturbed(w, acts[0]) && AllUndisturbed(Do(w, acts[0]), acts[1..]))
  }

  lemma {:induction false} AllKeepsSafe(w: World, acts: seq<Action>)
    requires Safe(w) && TimesOk(w) && AllUndisturbed(w, acts)
    ensures Safe(DoAll(w, acts)) && TimesOk(DoAll(w, acts))
    decreases |acts|
  {
    if acts != [] {
      KeepsSafe(w, acts[0]);
      KeepsTimes(w, acts[0]);
      AllKeepsSafe(Do(w, acts[0]), acts[1..]);
    }
  }

  lemma StartSafe()
    ensures Safe(Start()) && TimesOk(Start())
  {
    forall k ensures !HasOpen(Start().store.core.alerts, k) {}
  }

  // At most one open alert per rule and device, after every undisturbed history.
  lemma OneOpenAlert(history: seq<Action>)
    requires AllUndisturbed(Start(), history)
    ensures OneOpen(DoAll(Start(), history).store.core.alerts)
  {
    StartSafe();
    AllKeepsSafe(Start(), history);
  }
}
