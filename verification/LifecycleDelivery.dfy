/**
 The manager's operations refine the outbox machine: each is a run of it. So every theorem about all
 outbox histories holds of every manager history, interleavings and failed transactions included.
 */
module LifecycleDelivery {
  import opened Basics
  import opened OutboxModel
  import opened OutboxProofs
  import opened LifecycleModel

  lemma {:induction false} RunConcat(s: State, xs: seq<Step>, ys: seq<Step>)
    ensures Run(s, xs + ys) == Run(Run(s, xs), ys)
    decreases |xs|
  {
    if xs == [] {
      assert xs + ys == ys;
    } else {
      assert (xs + ys)[1..] == xs[1..] + ys;
      RunConcat(Next(s, xs[0]), xs[1..], ys);
    }
  }

  lemma RunOne(s: State, step: Step)
    ensures Run(s, [step]) == Next(s, step)
  {
    assert Run(Next(s, step), [step][1..]) == Next(s, step);
  }

  lemma NeverBlocked(s: State, a: nat, rule: Option<bool>)
    requires Inv(s)
    ensures !CloseBlocked(s.db.outbox, a, rule)
  {
    forall c | Dispatched(s.db.outbox, TriggerKey(a, c)) ensures s.db.outbox[TriggerKey(a, c)].payload != Corrupt {
      assert RowOk(s, TriggerKey(a, c));
    }
  }

  lemma CloseStep(s: State, flags: map<nat, Option<bool>>, a: nat)
    requires AllOpen(s.db, flags) && a in flags
    requires Inv(s.(db := ClosedSet(s.db, s.now, flags - {a})))
    ensures var rest := s.(db := ClosedSet(s.db, s.now, flags - {a}));
            Next(rest, Step.Closing(a, flags[a])) == s.(db := ClosedSet(s.db, s.now, flags))
  {
    var rest := s.(db := ClosedSet(s.db, s.now, flags - {a}));
    CloseOneMore(s.db, s.now, flags, a);
    NeverBlocked(rest, a, flags[a]);
  }

  lemma NothingClosed(s: State)
    ensures s.(db := ClosedSet(s.db, s.now, map[])) == s
  {
    assert ClosedSet(s.db, s.now, map[]) == s.db;
  }

  lemma CloseManyIsRun(s: State, flags: map<nat, Option<bool>>) returns (steps: seq<Step>)
    requires Inv(s) && AllOpen(s.db, flags)
    ensures Run(s, steps) == s.(db := ClosedSet(s.db, s.now, flags))
    ensures Inv(Run(s, steps))
    decreases |flags|
  {
    if flags == map[] {
      NothingClosed(s);
      steps := [];
    } else {
      var a :| a in flags;
      var rest := CloseManyIsRun(s, flags - {a});
      var mid, last := Run(s, rest), Step.Closing(a, flags[a]);
      CloseStep(s, flags, a);
      RunThen(s, rest, last);
      Keeps(mid, last);
      steps := rest + [last];
    }
  }

  lemma RunThen(s: State, steps: seq<Step>, last: Step)
    ensures Run(s, steps + [last]) == Next(Run(s, steps), last)
  {
    RunConcat(s, steps, [last]);
    RunOne(Run(s, steps), last);
  }

  lemma CloseAlertsOk(s: State, flags: map<nat, Option<bool>>)
    requires Inv(s)
    ensures CloseAlerts(s.db, s.now, flags) == Ok(ClosedSet(s.db, s.now, flags))
  {
    forall a | a in flags ensures !CloseBlocked(s.db.outbox, a, flags[a]) { NeverBlocked(s, a, flags[a]); }
  }

  lemma OneStep(w: World, step: Step, w': World) returns (steps: seq<Step>)
    requires Inv(Core(w)) && Core(w') == Next(Core(w), step)
    ensures Run(Core(w), steps) == Core(w') && Inv(Core(w'))
  {
    steps := [step];
    RunOne(Core(w), step);
    Keeps(Core(w), step);
  }

  lemma RuleResetIsRun(w: World, r: nat) returns (steps: seq<Step>)
    requires Inv(Core(w)) && r in w.store.rules
    ensures Run(Core(w), steps) == Core(w).(db := ResetRule(w, r).core)
    ensures Inv(Run(Core(w), steps))
  {
    steps := CloseManyIsRun(Core(w), SameFlag(OpenForRule(w.store.core, r), w.store.rules[r].rule.notifyRecovery));
  }

  lemma EvaluatorIsRun(w: World, act: Action) returns (steps: seq<Step>)
    requires Inv(Core(w)) && (act.Fire? || act.Clear?)
    ensures Run(Core(w), steps) == Core(Do(w, act)) && Inv(Core(Do(w, act)))
  {
    var w' := Do(w, act);
    steps := [];
    if act.Fire? && Fires(w, act.alert, act.commits) {
      var t := w.eval.attempt;
      steps := OneStep(w, Opening(act.alert, t.key.rule, t.key.device, t.evaluatedAt, t.rule.channels,
                                  Decoded(t.rule.notifyRecovery)), w');
    } else if act.Clear? && w' != w {
      var k := Key(act.rule, act.device);
      var ids := if w.mem.states[k].notified then OpenForKey(w.store.core, k) else {};
      var flags := SameFlag(ids, w.pass.rules[act.rule].notifyRecovery);
      CloseAlertsOk(Core(w), flags);
      steps := CloseManyIsRun(Core(w), flags);
    }
  }

  lemma OperatorIsRun(w: World, act: Action) returns (steps: seq<Step>)
    requires Inv(Core(w)) && (act.Resolve? || act.Silence?)
    ensures Run(Core(w), steps) == Core(Do(w, act)) && Inv(Core(Do(w, act)))
  {
    steps := [];
    if act.Resolve? {
      if Do(w, act) != w { steps := OneStep(w, Step.Closing(act.alert, RuleFlag(w.store, act.alert)), Do(w, act)); }
    } else if act.commits {
      CloseAlertsOk(Core(w), DeviceFlags(w.store, act.device));
      steps := CloseManyIsRun(Core(w), DeviceFlags(w.store, act.device));
    }
  }

  lemma RuleIsRun(w: World, act: Action) returns (steps: seq<Step>)
    requires Inv(Core(w)) && (act.Edit? || act.Remove?)
    ensures Run(Core(w), steps) == Core(Do(w, act)) && Inv(Core(Do(w, act)))
  {
    steps := [];
    if act.commits && act.rule in w.store.rules {
      steps := RuleResetIsRun(w, act.rule);
      if act.Remove? {
        var reset := Run(Core(w), steps);
        RunThen(Core(w), steps, Detaching(act.rule));
        Keeps(reset, Detaching(act.rule));
        steps := steps + [Detaching(act.rule)];
      }
    }
  }

  lemma ActionIsRun(w: World, act: Action) returns (steps: seq<Step>)
    requires Inv(Core(w))
    ensures Run(Core(w), steps) == Core(Do(w, act)) && Inv(Core(Do(w, act)))
  {
    steps := [];
    if act.Wait? { steps := OneStep(w, Tick(act.elapsed), Do(w, act)); }
    else if act.Acknowledge? { steps := OneStep(w, Acknowledging(act.alert), Do(w, act)); }
    else if act.Fire? || act.Clear? { steps := EvaluatorIsRun(w, act); }
    else if act.Resolve? || act.Silence? { steps := OperatorIsRun(w, act); }
    else if act.Edit? || act.Remove? { steps := RuleIsRun(w, act); }
    else if act.Restart? { steps := OneStep(w, Retiring(OpenOfDisabled(w.store)), Do(w, act)); }
    else if act.Deliver? && Do(w, act) != w { steps := OneStep(w, act.step, Do(w, act)); }
  }

  lemma {:induction false} ActionsAreRun(w: World, acts: seq<Action>) returns (steps: seq<Step>)
    requires Inv(Core(w))
    ensures Run(Core(w), steps) == Core(DoAll(w, acts)) && Inv(Core(DoAll(w, acts)))
    decreases |acts|
  {
    if acts == [] {
      steps := [];
    } else {
      var first := ActionIsRun(w, acts[0]);
      var rest := ActionsAreRun(Do(w, acts[0]), acts[1..]);
      steps := first + rest;
      RunConcat(Core(w), first, rest);
    }
  }

  // Every manager history is an outbox history.
  lemma ManagerRefinesOutbox(history: seq<Action>)
    ensures exists steps :: After(steps) == Core(DoAll(Start(), history))
  {
    var steps := ActionsAreRun(Start(), history);
    assert After(steps) == Core(DoAll(Start(), history));
  }

  // Delivery order for the whole manager: a recovery being sent means its trigger came to rest before,
  // and nothing the manager, its users or its workers do later touches that trigger again.
  lemma ManagerDeliveryOrder(history: seq<Action>, more: seq<Action>, a: nat, c: Channel)
    requires Dispatched(DoAll(Start(), history).store.core.outbox, RecoveryKey(a, c))
    ensures var before := DoAll(Start(), history).store.core.outbox;
            var after := DoAll(DoAll(Start(), history), more).store.core.outbox;
            && TriggerKey(a, c) in before && Terminal(before[TriggerKey(a, c)].status)
            && TriggerKey(a, c) in after && after[TriggerKey(a, c)] == before[TriggerKey(a, c)]
  {
    var steps := ActionsAreRun(Start(), history);
    var later := ActionsAreRun(DoAll(Start(), history), more);
    assert After(steps) == Core(DoAll(Start(), history));
    DeliveryOrder(steps, later, a, c);
  }

  // Every trigger of a closed alert that was or may still be recorded sent has a recovery row exactly
  // if the close wanted one, which a start of the program never does.
  lemma ManagerRecoveryComplete(history: seq<Action>, a: nat, c: Channel)
    requires var core := DoAll(Start(), history).store.core;
             && a in core.alerts && !IsOpen(core.alerts[a]) && Dispatched(core.outbox, TriggerKey(a, c))
    ensures var core := DoAll(Start(), history).store.core;
            RecoveryKey(a, c) in core.outbox
            <==> Promised(core.alerts[a].closing, core.outbox[TriggerKey(a, c)].payload)
  {
    var steps := ActionsAreRun(Start(), history);
    assert After(steps) == Core(DoAll(Start(), history));
    RecoveryComplete(steps, a, c);
  }

  lemma RestartIsRetiring(w: World)
    ensures Core(Do(w, Restart)) == Next(Core(w), Retiring(OpenOfDisabled(w.store)))
    ensures Do(w, Restart).store.rules == w.store.rules
  {}

  lemma LosesRecovery(w: World, more: seq<Action>, a: nat, c: Channel)
    requires Inv(Core(w)) && a in OpenOfDisabled(w.store)
    ensures RecoveryKey(a, c) !in DoAll(Do(w, Restart), more).store.core.outbox
  {
    RestartIsRetiring(w);
    Keeps(Core(w), Retiring(OpenOfDisabled(w.store)));
    var steps := ActionsAreRun(Do(w, Restart), more);
    RetiredForGood(Core(w), OpenOfDisabled(w.store), a, steps, c);
  }

  lemma ClosedAfterRetiring(s: State, ids: set<nat>, a: nat, rule: Option<bool>, c: Channel)
    requires Inv(s) && a in s.db.alerts && IsOpen(s.db.alerts[a]) && a !in ids
    requires Dispatched(s.db.outbox, TriggerKey(a, c))
    ensures var retired := Next(s, Retiring(ids)).db;
            var closed := CloseAlert(retired, s.now, a, rule);
            && a in retired.alerts && retired.alerts[a] == s.db.alerts[a] && closed.Ok?
            && (RecoveryKey(a, c) in closed.value.outbox <==> Wants(rule, s.db.outbox[TriggerKey(a, c)].payload))
  {
    var retired := Next(s, Retiring(ids));
    Keeps(s, Retiring(ids));
    NeverBlocked(retired, a, rule);
    NoRecoveryBeforeClose(retired, a);
    assert Recovers(s.db.outbox, a, rule, c) ==> RecoveryKey(a, c) in RecoveryKeys(s.db.outbox, a, rule);
  }

  lemma LeavesRecovery(w: World, a: nat, c: Channel)
    requires Inv(Core(w)) && a in w.store.core.alerts && IsOpen(w.store.core.alerts[a]) && a !in OpenOfDisabled(w.store)
    requires Dispatched(w.store.core.outbox, TriggerKey(a, c))
    ensures RecoveryKey(a, c) in ResolveByHand(Do(w, Restart), a, true).store.core.outbox
            <==> Wants(RuleFlag(w.store, a), w.store.core.outbox[TriggerKey(a, c)].payload)
  {
    RestartIsRetiring(w);
    ClosedAfterRetiring(Core(w), OpenOfDisabled(w.store), a, RuleFlag(w.store, a), c);
  }

  // An open alert whose trigger was or may be recorded sent: a restart closes it without its recovery, for good, if its
  // rule is disabled; otherwise resolving it afterwards gives the recovery exactly if its rule wants one.
  lemma RestartDecidesRecovery(history: seq<Action>, a: nat, c: Channel)
    requires var core := DoAll(Start(), history).store.core;
             a in core.alerts && IsOpen(core.alerts[a]) && Dispatched(core.outbox, TriggerKey(a, c))
    ensures var w := DoAll(Start(), history);
            if a in OpenOfDisabled(w.store) then
              forall more :: RecoveryKey(a, c) !in DoAll(Do(w, Restart), more).store.core.outbox
            else
              RecoveryKey(a, c) in ResolveByHand(Do(w, Restart), a, true).store.core.outbox
              <==> Wants(RuleFlag(w.store, a), w.store.core.outbox[TriggerKey(a, c)].payload)
  {
    var w := DoAll(Start(), history);
    var steps := ActionsAreRun(Start(), history);
    if a in OpenOfDisabled(w.store) {
      forall more ensures RecoveryKey(a, c) !in DoAll(Do(w, Restart), more).store.core.outbox {
        LosesRecovery(w, more, a, c);
      }
    } else {
      LeavesRecovery(w, a, c);
    }
  }
}
