/**
 What each operation of the manager does, read off the columns of the tables and the entries of memory: which alerts a
 transaction closes and with which recoveries, what an opened alert leaves behind, when an observation opens one, what a
 reload loads, and what memory writes and a restart drop.
 */
module LifecycleSteps {
  import opened Basics
  import opened OutboxModel
  import opened OutboxProofs
  import opened LifecycleModel
  import opened LifecycleDelivery

  // ---------- which alerts a transaction closes ----------

  // Exactly the unresolved alerts that are hit get resolved; alerts and rows of the others stay. flag is the
  // notify_recovery flag of the alert's rule, if there is one. Rule ids are left to the caller.
  ghost predicate ClosesJust(x: Db, y: Db, hit: nat -> bool, flag: nat -> Option<bool>) {
    && y.alerts.Keys == x.alerts.Keys
    && (forall a :: a in x.alerts ==>
          && (y.alerts[a].status == Resolved <==> x.alerts[a].status == Resolved || hit(a))
          && y.alerts[a].device == x.alerts[a].device && y.alerts[a].triggeredAt == x.alerts[a].triggeredAt
          && (x.alerts[a].status == Resolved || !hit(a) ==> y.alerts[a].(rule := x.alerts[a].rule) == x.alerts[a]))
    && (forall k: RowKey {:trigger k in y.outbox} {:trigger k in x.outbox} ::
          k.alert !in x.alerts || x.alerts[k.alert].status == Resolved || !hit(k.alert) ==>
            (k in y.outbox <==> k in x.outbox) && (k in x.outbox ==> y.outbox[k] == x.outbox[k]))
    && (forall a, c :: a in x.alerts && x.alerts[a].status != Resolved && hit(a) ==> ChannelClosed(x, y, a, c, flag(a)))
  }

  // On one channel: what still waits dies, and what was sent or is being sent gets a recovery if the rule wants one,
  // or, without a rule, if the trigger's payload does.
  ghost predicate ChannelClosed(x: Db, y: Db, a: nat, c: Channel, flag: Option<bool>) {
    var t := RowKey(a, c, Trigger);
    && (t in y.outbox <==> t in x.outbox)
    && (t in x.outbox ==>
          && (x.outbox[t].status == Pending || x.outbox[t].status == Failed ==> y.outbox[t].status == Dead)
          && (x.outbox[t].status != Pending && x.outbox[t].status != Failed ==> y.outbox[t] == x.outbox[t]))
    && (RowKey(a, c, Recovery) in y.outbox <==>
          && t in x.outbox && (x.outbox[t].status == Sent || x.outbox[t].status == Sending)
          && (if flag.Some? then flag.value else x.outbox[t].payload.Decoded? && x.outbox[t].payload.notifyRecovery))
  }

  lemma ChannelIsClosed(s: State, flags: map<nat, Option<bool>>, a: nat, c: Channel)
    requires Inv(s) && AllOpen(s.db, flags) && a in flags
    ensures ChannelClosed(s.db, ClosedSet(s.db, s.now, flags), a, c, flags[a])
  {
    NoRecoveryBeforeClose(s, a);
    var k := RecoveryKey(a, c);
    assert k in AllRecoveryKeys(s.db.outbox, flags) <==> Recovers(s.db.outbox, a, flags[a], c);
    assert TriggerKey(a, c) !in AllRecoveryKeys(s.db.outbox, flags);
  }

  lemma SetCloses(s: State, flags: map<nat, Option<bool>>, hit: nat -> bool, flag: nat -> Option<bool>)
    requires Inv(s) && AllOpen(s.db, flags)
    requires forall a :: a in flags <==> a in s.db.alerts && s.db.alerts[a].status != Resolved && hit(a)
    requires forall a :: a in flags ==> flags[a] == flag(a)
    ensures ClosesJust(s.db, ClosedSet(s.db, s.now, flags), hit, flag)
  {
    var y := ClosedSet(s.db, s.now, flags);
    forall a, c | a in s.db.alerts && s.db.alerts[a].status != Resolved && hit(a)
      ensures ChannelClosed(s.db, y, a, c, flag(a))
    {
      ChannelIsClosed(s, flags, a, c);
    }
  }

  // The states that a transaction keeps.
  ghost predicate KeepsJust(x: map<Key, Occurrence>, y: map<Key, Occurrence>, kept: Key -> bool) {
    forall k {:trigger k in y} {:trigger k in x} :: (k in y <==> k in x && kept(k)) && (k in y ==> y[k] == x[k])
  }

  ghost predicate SameRuleIds(x: Db, y: Db) {
    forall a :: a in x.alerts && a in y.alerts ==> y.alerts[a].rule == x.alerts[a].rule
  }

  function OfDevice(x: Db, d: nat): nat -> bool { (a: nat) => a in x.alerts && x.alerts[a].device == d }

  function OfRule(x: Db, r: nat): nat -> bool { (a: nat) => a in x.alerts && x.alerts[a].rule == Some(r) }

  function OfPair(x: Db, r: nat, d: nat): nat -> bool {
    (a: nat) => a in x.alerts && x.alerts[a].rule == Some(r) && x.alerts[a].device == d
  }

  function Nobody(): nat -> bool { (a: nat) => false }

  function Always(flag: bool): nat -> Option<bool> { (a: nat) => Some(flag) }

  lemma HistoryInv(history: seq<Action>)
    ensures Inv(Core(DoAll(Start(), history)))
  {
    var steps := ActionsAreRun(Start(), history);
  }

  // What the flag of an alert's own rule is now.
  function OwnFlag(store: Store, a: nat): Option<bool> {
    if a in store.core.alerts && store.core.alerts[a].rule.Some? && store.core.alerts[a].rule.value in store.rules
    then Some(store.rules[store.core.alerts[a].rule.value].rule.notifyRecovery) else None
  }

  // Silencing a device resolves its alerts and no others, and drops its states and no others.
  lemma SilenceExact(history: seq<Action>, d: nat)
    ensures var w := DoAll(Start(), history);
            var w', x := Do(w, Silence(d, true)), w.store.core;
            && ClosesJust(x, w'.store.core, OfDevice(x, d), (a: nat) => OwnFlag(w.store, a))
            && SameRuleIds(x, w'.store.core) && w'.store.rules == w.store.rules && w'.mem == w.mem
            && KeepsJust(w.store.states, w'.store.states, (k: Key) => k.device != d)
  {
    var w := DoAll(Start(), history);
    var x, flags := w.store.core, DeviceFlags(w.store, d);
    HistoryInv(history);
    CloseAlertsOk(Core(w), flags);
    SetCloses(Core(w), flags, OfDevice(x, d), (a: nat) => OwnFlag(w.store, a));
  }

  lemma ResetExact(w: World, r: nat)
    requires Inv(Core(w)) && r in w.store.rules
    ensures var x, y := w.store.core, ResetRule(w, r);
            && ClosesJust(x, y.core, OfRule(x, r), Always(w.store.rules[r].rule.notifyRecovery))
            && SameRuleIds(x, y.core) && y.rules == w.store.rules
            && KeepsJust(w.store.states, y.states, (k: Key) => k.rule != r)
  {
    var x, flag := w.store.core, w.store.rules[r].rule.notifyRecovery;
    SetCloses(Core(w), SameFlag(OpenForRule(x, r), flag), OfRule(x, r), Always(flag));
  }

  // Editing a rule resolves its alerts with the recoveries of its old definition, drops its states, and dates it now.
  lemma EditExact(history: seq<Action>, r: nat, def: Rule)
    requires r in DoAll(Start(), history).store.rules
    ensures var w := DoAll(Start(), history);
            var w', x := Do(w, Edit(r, def, true)), w.store.core;
            && ClosesJust(x, w'.store.core, OfRule(x, r), Always(w.store.rules[r].rule.notifyRecovery))
            && SameRuleIds(x, w'.store.core) && w'.store.rules == w.store.rules[r := RuleRow(def, w.now)]
            && KeepsJust(w.store.states, w'.store.states, (k: Key) => k.rule != r) && w'.mem == w.mem
  {
    HistoryInv(history);
    ResetExact(DoAll(Start(), history), r);
  }

  lemma DetachedCloses(x: Db, y: Db, r: nat, hit: nat -> bool, flag: nat -> Option<bool>)
    requires ClosesJust(x, y, hit, flag) && SameRuleIds(x, y)
    ensures ClosesJust(x, DetachRule(y, r), hit, flag)
    ensures forall a :: a in x.alerts ==> DetachRule(y, r).alerts[a].rule
                                          == if x.alerts[a].rule == Some(r) then None else x.alerts[a].rule
  {
    var z := DetachRule(y, r);
    forall a, c | a in x.alerts && x.alerts[a].status != Resolved && hit(a) ensures ChannelClosed(x, z, a, c, flag(a)) {
      assert ChannelClosed(x, y, a, c, flag(a));
    }
  }

  // Removing it does the same, deletes its row, and takes its id off its alerts.
  lemma RemoveExact(history: seq<Action>, r: nat)
    requires r in DoAll(Start(), history).store.rules
    ensures var w := DoAll(Start(), history);
            var w', x := Do(w, Remove(r, true)), w.store.core;
            && ClosesJust(x, w'.store.core, OfRule(x, r), Always(w.store.rules[r].rule.notifyRecovery))
            && (forall a :: a in x.alerts ==> w'.store.core.alerts[a].rule
                                              == if x.alerts[a].rule == Some(r) then None else x.alerts[a].rule)
            && w'.store.rules == w.store.rules - {r}
            && KeepsJust(w.store.states, w'.store.states, (k: Key) => k.rule != r) && w'.mem == w.mem
  {
    var w := DoAll(Start(), history);
    var x := w.store.core;
    HistoryInv(history);
    ResetExact(w, r);
    DetachedCloses(x, ResetRule(w, r).core, r, OfRule(x, r), Always(w.store.rules[r].rule.notifyRecovery));
  }

  lemma ClearLeaves(w: World, k: Key)
    requires Inv(Core(w)) && w.eval == Idle && k.rule in w.pass.rules && k in w.mem.states
    ensures var w' := DropState(ClearCondition(w, k.rule, k.device, true));
            var ids := if w.mem.states[k].notified then OpenForKey(w.store.core, k) else {};
            && w'.store.core == ClosedSet(w.store.core, w.now, SameFlag(ids, w.pass.rules[k.rule].notifyRecovery))
            && w'.store.rules == w.store.rules && w'.store.states == w.store.states - {k}
            && w'.mem == w.mem.(states := w.mem.states - {k}) && w'.eval == Idle
  {
    var ids := if w.mem.states[k].notified then OpenForKey(w.store.core, k) else {};
    CloseAlertsOk(Core(w), SameFlag(ids, w.pass.rules[k.rule].notifyRecovery));
  }

  lemma PairCloses(w: World, r: nat, d: nat, notified: bool, flag: bool)
    requires Inv(Core(w))
    ensures var x := w.store.core;
            var y := ClosedSet(x, w.now, SameFlag(if notified then OpenForKey(x, Key(r, d)) else {}, flag));
            ClosesJust(x, y, if notified then OfPair(x, r, d) else Nobody(), Always(flag)) && SameRuleIds(x, y)
  {
    var x := w.store.core;
    SetCloses(Core(w), SameFlag(if notified then OpenForKey(x, Key(r, d)) else {}, flag),
              if notified then OfPair(x, r, d) else Nobody(), Always(flag));
  }

  // When the condition of a pair is over, its alerts are resolved if its state says notified, and its state is dropped.
  lemma ClearExact(history: seq<Action>, r: nat, d: nat)
    requires var w := DoAll(Start(), history); w.eval == Idle && r in w.pass.rules && Key(r, d) in w.mem.states
    ensures var w := DoAll(Start(), history);
            var w', x, k := DropState(Do(w, Clear(r, d, true))), w.store.core, Key(r, d);
            && ClosesJust(x, w'.store.core, if w.mem.states[k].notified then OfPair(x, r, d) else Nobody(),
                          Always(w.pass.rules[r].notifyRecovery))
            && SameRuleIds(x, w'.store.core) && w'.store.rules == w.store.rules
            && w'.store.states == w.store.states - {k} && w'.mem == w.mem.(states := w.mem.states - {k})
            && w'.eval == Idle
  {
    var w := DoAll(Start(), history);
    HistoryInv(history);
    ClearLeaves(w, Key(r, d));
    PairCloses(w, r, d, w.mem.states[Key(r, d)].notified, w.pass.rules[r].notifyRecovery);
  }

  lemma CloseIsSet(s: State, a: nat, flag: Option<bool>)
    requires Inv(s) && a in s.db.alerts && IsOpen(s.db.alerts[a])
    ensures CloseAlert(s.db, s.now, a, flag) == Ok(ClosedSet(s.db, s.now, map[a := flag]))
  {
    var flags := map[a := flag];
    NeverBlocked(s, a, flag);
    CloseOneMore(s.db, s.now, flags, a);
    assert flags - {a} == map[];
    NothingClosed(s);
  }

  lemma ResolveLeaves(w: World, a: nat)
    requires Inv(Core(w)) && a in w.store.core.alerts && IsOpen(w.store.core.alerts[a])
    ensures var w', alert := ResolveByHand(w, a, true), w.store.core.alerts[a];
            && w'.store.core == ClosedSet(w.store.core, w.now, map[a := OwnFlag(w.store, a)])
            && w'.store.rules == w.store.rules && w'.mem == w.mem
            && KeepsJust(w.store.states, w'.store.states,
                         (k: Key) => !(alert.rule == Some(k.rule) && alert.device == k.device))
  {
    CloseIsSet(Core(w), a, OwnFlag(w.store, a));
  }

  // Resolving an alert by hand resolves it alone and drops the state of its pair.
  lemma ResolveExact(history: seq<Action>, a: nat)
    requires var x := DoAll(Start(), history).store.core; a in x.alerts && x.alerts[a].status != Resolved
    ensures var w := DoAll(Start(), history);
            var w', x := Do(w, Resolve(a, true)), w.store.core;
            && ClosesJust(x, w'.store.core, (b: nat) => b == a, (b: nat) => OwnFlag(w.store, b))
            && SameRuleIds(x, w'.store.core) && w'.store.rules == w.store.rules && w'.mem == w.mem
            && KeepsJust(w.store.states, w'.store.states,
                         (k: Key) => a in x.alerts
                                     && !(x.alerts[a].rule == Some(k.rule) && x.alerts[a].device == k.device))
  {
    var w := DoAll(Start(), history);
    var flags := map[a := OwnFlag(w.store, a)];
    HistoryInv(history);
    ResolveLeaves(w, a);
    SetCloses(Core(w), flags, (b: nat) => b == a, (b: nat) => OwnFlag(w.store, b));
  }

  // ---------- opening an alert ----------

  // A pair's condition holds: the evaluator opens an alert now if and only if it has held for the rule's duration, no
  // alert is out for it, and the cooldown since the last one is over. A new condition begins now.
  lemma ObserveExact(w: World, r: nat, d: nat, commits: bool)
    requires w.eval == Idle && r in w.pass.rules
    ensures var k, w' := Key(r, d), Do(w, Observe(r, d, commits));
            var goes := commits && (k in w.mem.states || r in w.store.rules);
            var first := if k in w.mem.states then w.mem.states[k].first else w.pass.now;
            && (w'.eval.Ready? <==>
                  && goes && !(k in w.mem.states && w.mem.states[k].notified)
                  && w.pass.now >= first + w.pass.rules[r].duration
                  && (k in w.mem.last ==> w.pass.now >= w.mem.last[k] + w.pass.rules[r].cooldown))
            && (w'.eval.Ready? ==> w'.eval.attempt.key == k && w'.eval.attempt.rule == w.pass.rules[r]
                                   && w'.eval.attempt.evaluatedAt == w.pass.now)
            && w'.mem.last == w.mem.last && w'.store.core == w.store.core
            && (if goes && k !in w.mem.states then
                  && w'.mem.states == w.mem.states[k := Occurrence(w.pass.now, false)]
                  && w'.store.states == w.store.states[k := Occurrence(w.pass.now, false)]
                else w'.mem.states == w.mem.states && w'.store.states == w.store.states)
  {
    var k := Key(r, d);
    if k in w.mem.states { assert w.mem.states[k := w.mem.states[k]] == w.mem.states; }
  }

  // Its alert is active on the pair, has one pending trigger row on each channel of the rule, and marks the state.
  lemma OpenedExact(history: seq<Action>, a: nat, k: RowKey)
    requires var w := DoAll(Start(), history);
             && w.eval.Ready? && w.eval.attempt.key.rule in w.store.rules && a !in w.store.core.alerts
    ensures var w := DoAll(Start(), history);
            var w', t := Do(w, Fire(a, true)), w.eval.attempt;
            && w'.store.core.alerts
               == w.store.core.alerts[a := Alert(Some(t.key.rule), t.key.device, Active, t.evaluatedAt, w.now,
                                                 NotClosed)]
            && (k.alert == a ==>
                  && (k in w'.store.core.outbox <==> k.event == Trigger && k.channel in t.rule.channels)
                  && (k in w'.store.core.outbox ==>
                        w'.store.core.outbox[k] == Row(Pending, 0, w.now, w.now, Decoded(t.rule.notifyRecovery))))
            && (k.alert != a ==>
                  && (k in w'.store.core.outbox <==> k in w.store.core.outbox)
                  && (k in w.store.core.outbox ==> w'.store.core.outbox[k] == w.store.core.outbox[k]))
            && w'.store.states == (if t.key in w.store.states
                                   then w.store.states[t.key := w.store.states[t.key].(notified := true)]
                                   else w.store.states)
  {
    HistoryInv(history);
    var s := Core(DoAll(Start(), history));
    if k in s.db.outbox { assert RowOk(s, k); }
  }

  // ---------- memory ----------

  // A reload loads the enabled rules, their states, and per pair the time of the latest alert since the rule's last
  // edit.
  lemma LoadExact(store: Store, r: nat, k: Key, t: nat)
    ensures var mem := Load(store);
            && (r in mem.rules <==> r in store.rules && store.rules[r].rule.enabled)
            && (r in mem.rules ==> mem.rules[r] == store.rules[r].rule)
            && (k in mem.states <==> k in store.states && k.rule in store.rules && store.rules[k.rule].rule.enabled)
            && (k in mem.states ==> mem.states[k] == store.states[k])
    ensures var last, alerts := Load(store).last, store.core.alerts;
            && (k in last <==>
                  && k.rule in store.rules
                  && exists a ::
                       && a in alerts && alerts[a].rule == Some(k.rule) && alerts[a].device == k.device
                       && alerts[a].triggeredAt >= store.rules[k.rule].updated)
            && (k in last ==>
                  && (exists a ::
                        && a in alerts && alerts[a].rule == Some(k.rule) && alerts[a].device == k.device
                        && alerts[a].triggeredAt == last[k])
                  && (forall a ::
                        a in alerts && alerts[a].rule == Some(k.rule) && alerts[a].device == k.device
                        ==> alerts[a].triggeredAt <= last[k]))
  {
    var alerts := store.core.alerts;
    if k.rule in store.rules {
      forall a | a in alerts && alerts[a].rule == Some(k.rule) && alerts[a].device == k.device
                 && alerts[a].triggeredAt >= store.rules[k.rule].updated
        ensures Eligible(store, a, k)
      {}
    }
    if k in LoadLast(store) {
      assert IsLatest(store, k, LoadLast(store)[k]);
      var a :| Eligible(store, a, k) && alerts[a].triggeredAt == LoadLast(store)[k];
      forall b | b in alerts && alerts[b].rule == Some(k.rule) && alerts[b].device == k.device
        ensures alerts[b].triggeredAt <= LoadLast(store)[k]
      {
        if !Eligible(store, b, k) {
          assert alerts[b].triggeredAt < store.rules[k.rule].updated <= alerts[a].triggeredAt;
        }
      }
    }
  }

  // The memory write after an edit or removal forgets states and cooldowns of the rule, ...
  lemma RuleForgotten(w: World, r: nat)
    requires ForgetRule(r) in w.owed
    ensures var mem := Do(w, Settle(ForgetRule(r))).mem;
            && KeepsJust(w.mem.states, mem.states, (q: Key) => q.rule != r) && mem.rules == w.mem.rules
            && (forall q :: q in mem.last <==> q in w.mem.last && q.rule != r)
            && (forall q :: q in mem.last ==> mem.last[q] == w.mem.last[q])
  {}

  // ... the one after a silence those of the device, ...
  lemma DeviceForgotten(w: World, d: nat)
    requires ForgetDevice(d) in w.owed
    ensures var mem := Do(w, Settle(ForgetDevice(d))).mem;
            && KeepsJust(w.mem.states, mem.states, (q: Key) => q.device != d) && mem.rules == w.mem.rules
            && (forall q :: q in mem.last <==> q in w.mem.last && q.device != d)
            && (forall q :: q in mem.last ==> mem.last[q] == w.mem.last[q])
  {}

  // ... and the one after a manual resolution forgets one state and keeps its cooldown.
  lemma StateForgotten(w: World, k: Key)
    requires Forget(k) in w.owed
    ensures var mem := Do(w, Settle(Forget(k))).mem;
            && KeepsJust(w.mem.states, mem.states, (q: Key) => q != k) && mem.rules == w.mem.rules
            && mem.last == w.mem.last
  {
    assert CooldownsLeft(w.mem.last, Forget(k)) == w.mem.last;
  }

  // A start of the program resolves the alerts of disabled rules, touches no row of the outbox, and drops their states.
  lemma RestartTables(w: World, a: nat)
    requires a in w.store.core.alerts
    ensures var x, y, rules := w.store.core, Do(w, Restart).store.core, w.store.rules;
            var off := x.alerts[a].rule.Some? && x.alerts[a].rule.value in rules
                       && !rules[x.alerts[a].rule.value].rule.enabled;
            && y.outbox == x.outbox && y.alerts.Keys == x.alerts.Keys && Do(w, Restart).store.rules == rules
            && (y.alerts[a].status == Resolved <==> x.alerts[a].status == Resolved || off)
            && (x.alerts[a].status == Resolved || !off ==> y.alerts[a] == x.alerts[a])
            && KeepsJust(w.store.states, Do(w, Restart).store.states,
                         (k: Key) => k.rule !in rules || rules[k.rule].rule.enabled)
  {}

  // A new rule gets an id never used before and is dated now.
  lemma CreateExact(w: World, def: Rule)
    ensures var w' := Do(w, Create(def, true));
            && w'.store.rules == w.store.rules[w.store.nextRule := RuleRow(def, w.now)]
            && w'.store.nextRule == w.store.nextRule + 1
            && w'.store.core == w.store.core && w'.store.states == w.store.states && w'.mem == w.mem
  {}

  // An operation whose transaction fails changes nothing; a failed alert is not tried again in the same pass.
  lemma RolledBack(w: World, r: nat, d: nat, a: nat, def: Rule)
    ensures Do(w, Observe(r, d, false)) == Do(w, Clear(r, d, false)) == Do(w, Resolve(a, false)) == w
    ensures Do(w, Silence(d, false)) == Do(w, Edit(r, def, false)) == Do(w, Remove(r, false)) == w
    ensures Do(w, Create(def, false)) == w
    ensures Do(w, Fire(a, false)) == if w.eval.Ready? then w.(eval := Idle) else w
  {}

  // The steps of the delivery workers are those of the outbox, and touch nothing else.
  lemma DeliverExact(w: World, step: Step)
    requires step.Claiming? || step.MarkingSent? || step.MarkingFailed? || step.Reclaiming?
    ensures var w' := Do(w, Deliver(step));
            && Core(w') == Next(Core(w), step)
            && w' == w.(store := w.store.(core := w'.store.core), issued := w'.issued)
  {}
}
