/**
 Exactly which steps endanger the one open alert of a rule and device: after such a step some undisturbed continuation
 opens a second one, after every other step none does.
 */
module LifecycleExact {
  import opened Basics
  import opened OutboxModel
  import opened LifecycleModel
  import opened LifecycleProofs

  // Some undisturbed continuation leads to two open alerts of one key.
  ghost predicate Breaks(w: World) {
    exists acts :: AllUndisturbed(w, acts) && !OneOpen(DoAll(w, acts).store.core.alerts)
  }

  lemma BreaksNow(w: World)
    requires !OneOpen(w.store.core.alerts)
    ensures Breaks(w)
  {
    assert AllUndisturbed(w, []) && DoAll(w, []) == w;
  }

  lemma BreaksAfter(w: World, act: Action)
    requires Undisturbed(w, act) && Breaks(Do(w, act))
    ensures Breaks(w)
  {
    var acts :| AllUndisturbed(Do(w, act), acts) && !OneOpen(DoAll(Do(w, act), acts).store.core.alerts);
    assert ([act] + acts)[1..] == acts;
    assert AllUndisturbed(w, [act] + acts);
  }

  lemma SafeNeverBreaks(w: World)
    requires Safe(w) && TimesOk(w)
    ensures !Breaks(w)
  {
    forall acts | AllUndisturbed(w, acts) ensures OneOpen(DoAll(w, acts).store.core.alerts) { AllKeepsSafe(w, acts); }
  }

  lemma NewId(alerts: map<nat, Alert>) returns (a: nat)
    ensures a !in alerts
  {
    if alerts.Keys == {} {
      a := 0;
    } else {
      var m := Largest(alerts.Keys);
      a := m + 1;
    }
  }

  // ---------- ways to a second alert, shortest first ----------

  lemma ReadyBreaks(w: World)
    requires w.eval.Ready? && HasOpen(w.store.core.alerts, w.eval.attempt.key)
    requires w.eval.attempt.key.rule in w.store.rules
    requires Enabled(w.store, w.eval.attempt.key.rule) ==> w.eval.attempt.key in w.store.states
    ensures Breaks(w)
  {
    var k := w.eval.attempt.key;
    var a := NewId(w.store.core.alerts);
    var w' := Do(w, Fire(a, true));
    var b :| OpenFor(w.store.core.alerts, b, k);
    assert OpenFor(w'.store.core.alerts, a, k) && OpenFor(w'.store.core.alerts, b, k) && a != b;
    BreaksNow(w');
    BreaksAfter(w, Fire(a, true));
  }

  // An idle evaluator, and an open alert of an enabled rule.
  ghost predicate Exposed(w: World, k: Key) {
    w.eval == Idle && HasOpen(w.store.core.alerts, k) && Enabled(w.store, k.rule)
  }

  // Memory waits for the condition to last long enough.
  lemma WaitingBreaks(w: World, k: Key)
    requires Exposed(w, k) && k.rule in w.mem.rules && k in w.store.states
    requires k in w.mem.states && !w.mem.states[k].notified
    ensures Breaks(w)
  {
    var rule := w.mem.rules[k.rule];
    var last := if k in w.mem.last then w.mem.last[k] else 0;
    var wait := w.mem.states[k].first + last + rule.duration + rule.cooldown;
    var w1 := Do(w, Wait(wait));
    var w2 := Do(w1, BeginPass);
    var w3 := Do(w2, Observe(k.rule, k.device, true));
    assert w3.eval.Ready? && w3.eval.attempt.key == k;
    ReadyBreaks(w3);
    BreaksAfter(w2, Observe(k.rule, k.device, true));
    BreaksAfter(w1, BeginPass);
    BreaksAfter(w, Wait(wait));
  }

  // A reload that nothing interrupts.
  predicate Reloaded(w: World, w': World) {
    w'.store == w.store && w'.eval == w.eval && w'.pass == w.pass && w'.owed == w.owed && w'.now == w.now
  }

  // The world after the three queries of a further reload.
  ghost function Queried(w: World): World {
    ReadLast(ReadStates(ReadRules(w), |w.loads|), |w.loads|)
  }

  lemma QueriedLoads(w: World)
    ensures Queried(w) == w.(loads := w.loads + [Loading(3, Load(w.store), w.store.core.alerts.Keys)])
  {
    assert Queried(w).loads == w.loads + [Loading(3, Load(w.store), w.store.core.alerts.Keys)];
  }

  lemma QueriesBreak(w: World)
    requires Breaks(Queried(w))
    ensures Breaks(w)
  {
    var i := |w.loads|;
    BreaksAfter(ReadStates(ReadRules(w), i), LoadCooldowns(i));
    BreaksAfter(ReadRules(w), LoadStates(i));
    BreaksAfter(w, LoadRules);
  }

  lemma CurrentLoadKeepsOpen(w: World)
    requires w.eval == Idle
    ensures KeepsOpen(w, Load(w.store))
  {
    forall k ensures StillKnown(w, Load(w.store), k) {}
  }

  lemma ReloadBreaks(w: World)
    requires w.eval == Idle
    requires forall w' :: Reloaded(w, w') && w'.mem == Load(w.store) ==> Breaks(w')
    ensures Breaks(w)
  {
    var i, read := |w.loads|, Queried(w);
    QueriedLoads(w);
    CurrentLoadKeepsOpen(read);
    assert Reloaded(w, Install(read, i)) && Install(read, i).mem == Load(w.store);
    BreaksAfter(read, Installing(i));
    QueriesBreak(w);
  }

  lemma UnnotifiedRowBreaks(w: World, k: Key)
    requires Exposed(w, k) && k in w.store.states && !w.store.states[k].notified
    ensures Breaks(w)
  {
    forall w' | Reloaded(w, w') && w'.mem == Load(w.store) ensures Breaks(w') { WaitingBreaks(w', k); }
    ReloadBreaks(w);
  }

  // The next observation takes the condition for a new one.
  lemma NewConditionBreaks(w: World, k: Key)
    requires Exposed(w, k) && k.rule in w.pass.rules && k !in w.mem.states
    ensures Breaks(w)
  {
    var w' := Do(w, Observe(k.rule, k.device, true));
    if w'.eval.Ready? { ReadyBreaks(w'); } else { UnnotifiedRowBreaks(w', k); }
    BreaksAfter(w, Observe(k.rule, k.device, true));
  }

  lemma MissingRowBreaks(w: World, k: Key)
    requires Exposed(w, k) && k !in w.store.states
    ensures Breaks(w)
  {
    forall w' | Reloaded(w, w') && w'.mem == Load(w.store) ensures Breaks(w') {
      NewConditionBreaks(Do(w', BeginPass), k);
      BreaksAfter(w', BeginPass);
    }
    ReloadBreaks(w);
  }

  // Memory believes that no alert is open: when the condition clears, its row goes and the alert stays.
  lemma ClearedBreaks(w: World, k: Key)
    requires Exposed(w, k) && k.rule in w.pass.rules && k in w.mem.states && !w.mem.states[k].notified
    ensures Breaks(w)
  {
    var w1 := Do(w, Clear(k.rule, k.device, true));
    NothingToClose(w, k);
    assert w1.store.core == w.store.core;
    var w2 := Do(w1, Drop);
    MissingRowBreaks(w2, k);
    BreaksAfter(w1, Drop);
    BreaksAfter(w, Clear(k.rule, k.device, true));
  }

  lemma NothingToClose(w: World, k: Key)
    ensures CloseAlerts(w.store.core, w.now, map[]) == Ok(w.store.core)
  {
    assert ClosedSet(w.store.core, w.now, map[]) == w.store.core;
  }

  lemma ForgottenBreaks(w: World, k: Key)
    requires Exposed(w, k) && Watched(w, k.rule) && !NotifiedIn(w.mem.states, k)
    ensures Breaks(w)
  {
    if k.rule in w.pass.rules {
      if k in w.mem.states { ClearedBreaks(w, k); } else { NewConditionBreaks(w, k); }
    } else {
      var w' := Do(w, BeginPass);
      if k in w.mem.states { ClearedBreaks(w', k); } else { NewConditionBreaks(w', k); }
      BreaksAfter(w, BeginPass);
    }
  }

  // Whatever the evaluator is doing, it can finish.
  lemma ForgottenBreaksBusy(w: World, k: Key)
    requires HasOpen(w.store.core.alerts, k) && Enabled(w.store, k.rule) && Watched(w, k.rule)
    requires !Remembers(w.eval, w.mem.states, k)
    ensures Breaks(w)
  {
    match w.eval
    case Idle => ForgottenBreaks(w, k);
    case Ready(_) =>
      ForgottenBreaks(Do(w, Fire(0, false)), k);
      BreaksAfter(w, Fire(0, false));
    case Recording(_, _) =>
      ForgottenBreaks(Do(w, Record), k);
      BreaksAfter(w, Record);
    case Dropping(_) =>
      ForgottenBreaks(Do(w, Drop), k);
      BreaksAfter(w, Drop);
  }

  // ---------- the exact condition ----------

  lemma WriteBreaks(w: World, w': World, k: Key)
    requires w'.store == w.store && w'.pass == w.pass && w'.eval == w.eval && !StillKnown(w, w'.mem, k)
    ensures Breaks(w')
  {
    if HasOpen(w.store.core.alerts, k) && NotifiedIn(w.store.states, k) && !Remembers(w.eval, w'.mem.states, k) {
      ForgottenBreaksBusy(w', k);
    } else {
      var a := NewId(w.store.core.alerts);
      var fired := Do(w', Fire(a, true));
      assert OpenFor(fired.store.core.alerts, a, k);
      ForgottenBreaksBusy(fired, k);
      BreaksAfter(w', Fire(a, true));
    }
  }

  lemma FireBreaks(w: World, a: nat)
    requires Fires(w, a, true) && Enabled(w.store, w.eval.attempt.key.rule) && w.eval.attempt.key !in w.store.states
    ensures Breaks(Do(w, Fire(a, true)))
  {
    var k, fired := w.eval.attempt.key, Do(w, Fire(a, true));
    assert OpenFor(fired.store.core.alerts, a, k);
    MissingRowBreaks(Do(fired, Record), k);
    BreaksAfter(fired, Record);
  }

  lemma DisturbedBreaks(w: World, act: Action)
    requires !Undisturbed(w, act)
    ensures Breaks(Do(w, act))
  {
    var w' := Do(w, act);
    match act
    case Observe(r, d, ok) => ReadyBreaks(w');
    case Fire(a, ok) => FireBreaks(w, a);
    case Settle(write) => var k :| !StillKnown(w, w'.mem, k); WriteBreaks(w, w', k);
    case Installing(i) => var k :| !StillKnown(w, w'.mem, k); WriteBreaks(w, w', k);
  }

  // After any undisturbed history, one more step makes two open alerts of one key possible if and only if it is one
  // of the four disturbances. An alert committed without its state row is one exactly if its rule is enabled.
  lemma OneOpenExact(history: seq<Action>, act: Action)
    requires AllUndisturbed(Start(), history)
    ensures Breaks(Do(DoAll(Start(), history), act)) <==> !Undisturbed(DoAll(Start(), history), act)
  {
    var w := DoAll(Start(), history);
    StartSafe();
    AllKeepsSafe(Start(), history);
    if Undisturbed(w, act) {
      KeepsSafe(w, act);
      KeepsTimes(w, act);
      SafeNeverBreaks(Do(w, act));
    } else {
      DisturbedBreaks(w, act);
    }
  }

  lemma FireExact(w: World, a: nat)
    requires Safe(w) && TimesOk(w) && Fires(w, a, true)
    ensures Breaks(FireAlert(w, a, true))
            <==> w.eval.attempt.key !in w.store.states && w.store.rules[w.eval.attempt.key.rule].rule.enabled
  {
    if Undisturbed(w, Fire(a, true)) {
      KeepsSafe(w, Fire(a, true));
      KeepsTimes(w, Fire(a, true));
      SafeNeverBreaks(Do(w, Fire(a, true)));
    } else {
      FireBreaks(w, a);
    }
  }
}
