/**
 When a reload is harmless, and two histories from the empty system in which a second alert opens: a rule edited between
 the two halves of handleTriggered, and a reload that reads before an alert and installs after it.
 */
module LifecycleRaces {
  import opened Basics
  import opened OutboxModel
  import opened LifecycleModel
  import opened LifecycleProofs
  import opened LifecycleRestart
  import opened LifecycleSpacing

  // ---------- reloads that see every open alert ----------

  ghost predicate LoadKnows(w: World, i: nat) {
    AtStage(w, i, 2) || AtStage(w, i, 3) ==>
      forall a, k :: OpenFor(w.store.core.alerts, a, k) && a in w.loads[i].known && Enabled(w.store, k.rule)
                     ==> NotifiedIn(w.loads[i].mem.states, k)
  }

  ghost predicate LoadsKnow(w: World) { forall i {:trigger LoadKnows(w, i)} :: LoadKnows(w, i) }

  // Whether every alert of w2 that existed in w1 and is open for an enabled rule already was so in w1.
  ghost predicate NoneReopened(w: World, w': World) {
    forall a, k :: a in w.store.core.alerts && OpenFor(w'.store.core.alerts, a, k) && Enabled(w'.store, k.rule)
                   ==> OpenFor(w.store.core.alerts, a, k) && Enabled(w.store, k.rule)
  }

  lemma EvaluatorReopensNone(w: World, act: Action)
    requires OfEvaluator(act)
    ensures NoneReopened(w, Do(w, act))
  {
    match act
    case Fire(a, ok) => FireReopensNone(w, a, ok);
    case Clear(r, d, ok) => ClearReopensNone(w, r, d, ok);
    case _ =>
  }

  lemma FireReopensNone(w: World, a: nat, ok: bool)
    ensures NoneReopened(w, FireAlert(w, a, ok))
  {}

  lemma ClearReopensNone(w: World, r: nat, d: nat, ok: bool)
    ensures NoneReopened(w, ClearCondition(w, r, d, ok))
  {}

  lemma ResolveReopensNone(w: World, a: nat, ok: bool)
    ensures NoneReopened(w, ResolveByHand(w, a, ok))
  {}

  lemma SilenceReopensNone(w: World, d: nat, ok: bool)
    ensures NoneReopened(w, SilenceDevice(w, d, ok))
  {}

  lemma EditReopensNone(w: World, r: nat, rule: Rule, ok: bool)
    ensures NoneReopened(w, EditRule(w, r, rule, ok))
  {
    if ok && r in w.store.rules {
      forall a | a in w.store.core.alerts && IsOpen(EditRule(w, r, rule, ok).store.core.alerts[a])
        ensures w.store.core.alerts[a].rule != Some(r)
      {
        ResetCloses(w, r, a);
      }
    }
  }

  lemma RemoveReopensNone(w: World, r: nat, ok: bool)
    ensures NoneReopened(w, RemoveRule(w, r, ok))
  {}

  lemma CreateReopensNone(w: World, rule: Rule, ok: bool)
    requires TimesOk(w)
    ensures NoneReopened(w, CreateRule(w, rule, ok))
  {
    forall a, k: Key | OpenFor(w.store.core.alerts, a, k) ensures k.rule in w.store.rules { assert AlertTimes(w, a); }
  }

  lemma AcknowledgeReopensNone(w: World, a: nat)
    ensures NoneReopened(w, AcknowledgeAlert(w, a))
  {}

  lemma OperatorReopensNone(w: World, act: Action)
    requires TimesOk(w) && OfOperator(act)
    ensures NoneReopened(w, Do(w, act))
  {
    match act
    case Acknowledge(a) => AcknowledgeReopensNone(w, a);
    case Resolve(a, ok) => ResolveReopensNone(w, a, ok);
    case Silence(d, ok) => SilenceReopensNone(w, d, ok);
    case Edit(r, rule, ok) => EditReopensNone(w, r, rule, ok);
    case Remove(r, ok) => RemoveReopensNone(w, r, ok);
    case Create(rule, ok) => CreateReopensNone(w, rule, ok);
  }

  lemma ReopensNone(w: World, act: Action)
    requires TimesOk(w)
    ensures NoneReopened(w, Do(w, act))
  {
    if OfEvaluator(act) { EvaluatorReopensNone(w, act); }
    else if OfOperator(act) { OperatorReopensNone(w, act); }
    else if act.Deliver? { DeliveryKeepsAlerts(w, act.step); }
  }

  // What a reload knows stays right as long as it does not read again.
  lemma LoadStaysKnowing(w: World, w': World, i: nat)
    requires TimesOk(w) && LoadKnows(w, i) && NoneReopened(w, w') && SameCopy(w, w', i)
    ensures LoadKnows(w', i)
  {
    assert LoadOk(w.store, w.loads[i]);
  }

  lemma LoadLearns(w: World, i: nat)
    requires Safe(w) && AtStage(w, i, 1)
    ensures LoadKnows(ReadStates(w, i), i)
  {
    var w' := ReadStates(w, i);
    forall a, k | OpenFor(w'.store.core.alerts, a, k) && Enabled(w'.store, k.rule)
      ensures NotifiedIn(w'.loads[i].mem.states, k)
    {
      assert KeyOk(w, k);
    }
  }

  // What a step does to a reload under way, unless it reads the states.
  predicate SameCopy(w: World, w': World, i: nat) {
    i < |w.loads| && i < |w'.loads|
    && w'.loads[i].known == w.loads[i].known && w'.loads[i].mem.states == w.loads[i].mem.states
    && (AtStage(w', i, 2) || AtStage(w', i, 3) ==> AtStage(w, i, 2) || AtStage(w, i, 3))
  }

  lemma EvaluatorLeavesLoads(w: World, act: Action)
    requires OfEvaluator(act)
    ensures Do(w, act).loads == w.loads
  {}

  lemma OperatorLeavesLoads(w: World, act: Action)
    requires OfOperator(act)
    ensures Do(w, act).loads == w.loads
  {}

  lemma QueriesLeaveLoads(w: World, j: nat, i: nat)
    requires i < |w.loads|
    ensures SameCopy(w, ReadRules(w), i) && SameCopy(w, ReadLast(w, j), i) && SameCopy(w, Install(w, j), i)
    ensures j != i ==> SameCopy(w, ReadStates(w, j), i)
  {}

  lemma LoadsAfter(w: World, act: Action, i: nat)
    requires !act.Restart? && i < |w.loads| && act != LoadStates(i)
    ensures SameCopy(w, Do(w, act), i)
  {
    if OfEvaluator(act) {
      EvaluatorLeavesLoads(w, act);
    } else if OfOperator(act) {
      OperatorLeavesLoads(w, act);
    } else {
      match act
      case LoadRules => QueriesLeaveLoads(w, 0, i);
      case LoadStates(j) => QueriesLeaveLoads(w, j, i);
      case LoadCooldowns(j) => QueriesLeaveLoads(w, j, i);
      case Installing(j) => QueriesLeaveLoads(w, j, i);
      case Deliver(step) => DeliveryKeepsAlerts(w, step);
      case _ =>
    }
  }

  lemma KeepsLoadKnows(w: World, act: Action, i: nat)
    requires Safe(w) && TimesOk(w) && LoadsKnow(w) && i < |w.loads| && !act.Restart?
    ensures LoadKnows(Do(w, act), i)
  {
    assert LoadKnows(w, i);
    if act != LoadStates(i) {
      ReopensNone(w, act);
      LoadsAfter(w, act, i);
      LoadStaysKnowing(w, Do(w, act), i);
    } else if AtStage(w, i, 1) {
      LoadLearns(w, i);
    }
  }

  lemma NewLoadsKnow(w: World, act: Action, i: nat)
    requires i >= |w.loads| || act.Restart?
    ensures LoadKnows(Do(w, act), i)
  {}

  lemma KeepsLoadsKnow(w: World, act: Action)
    requires Safe(w) && TimesOk(w) && LoadsKnow(w)
    ensures LoadsKnow(Do(w, act))
  {
    forall i: nat ensures LoadKnows(Do(w, act), i) {
      if i < |w.loads| && !act.Restart? { KeepsLoadKnows(w, act, i); } else { NewLoadsKnow(w, act, i); }
    }
  }

  lemma {:induction false} AllKeepLoadsKnow(w: World, acts: seq<Action>)
    requires Safe(w) && TimesOk(w) && LoadsKnow(w) && AllUndisturbed(w, acts)
    ensures LoadsKnow(DoAll(w, acts))
    decreases |acts|
  {
    if acts != [] {
      KeepsLoadsKnow(w, acts[0]);
      KeepsSafe(w, acts[0]);
      KeepsTimes(w, acts[0]);
      AllKeepLoadsKnow(Do(w, acts[0]), acts[1..]);
    }
  }

  // A reload disturbs nothing if no alert was committed and no occurrence about to become one began since it read the
  // states.
  lemma ReloadHarmless(history: seq<Action>, i: nat)
    requires AllUndisturbed(Start(), history)
    requires var w := DoAll(Start(), history);
             && AtStage(w, i, 3)
             && (forall a :: a in w.store.core.alerts ==> a in w.loads[i].known)
             && (w.eval.Ready? ==> w.eval.attempt.key in w.loads[i].mem.states)
    ensures Undisturbed(DoAll(Start(), history), Installing(i))
  {
    var w := DoAll(Start(), history);
    StartSafe();
    AllKeepLoadsKnow(Start(), history);
    AllKeepsSafe(Start(), history);
    assert LoadKnows(w, i);
    forall k ensures StillKnown(w, w.loads[i].mem, k) {
      if HasOpen(w.store.core.alerts, k) { var a :| OpenFor(w.store.core.alerts, a, k); }
    }
  }

  // ---------- two races ----------

  lemma Unfold(w: World, act: Action, rest: seq<Action>)
    ensures DoAll(w, [act] + rest) == DoAll(Do(w, act), rest)
    ensures AllUndisturbed(w, [act] + rest) <==> Undisturbed(w, act) && AllUndisturbed(Do(w, act), rest)
  {
    assert ([act] + rest)[1..] == rest;
  }

  predicate BothOpen(w: World, a: nat, b: nat, k: Key) {
    a != b && OpenFor(w.store.core.alerts, a, k) && OpenFor(w.store.core.alerts, b, k)
  }

  // The steps of a pass that observes one key, and of its alert.
  function Pass1(w: World, k: Key): World { ObserveCondition(StartPass(w), k.rule, k.device, true) }

  // Memory knows nothing of the key: two passes, as far apart as the duration, lead to an alert.
  function Waited(w: World, d: nat): World { w.(now := w.now + d) }

  function TwoPasses(w: World, k: Key, wait: nat, b: nat): World {
    FireAlert(Pass1(Waited(Pass1(w, k), wait), k), b, true)
  }

  lemma UnknownConditionFires(w: World, k: Key, b: nat)
    requires w.eval == Idle && k.rule in w.store.rules && k.rule in w.mem.rules
    requires k !in w.mem.states && k !in w.mem.last && b !in w.store.core.alerts
    ensures var w' := TwoPasses(w, k, w.mem.rules[k.rule].duration, b);
            && OpenFor(w'.store.core.alerts, b, k)
            && (forall a, j :: OpenFor(w.store.core.alerts, a, j) ==> OpenFor(w'.store.core.alerts, a, j))
  {
    var seen := Pass1(w, k);
    assert seen.mem.states[k] == Occurrence(w.now, false);
    var later := Waited(seen, w.mem.rules[k.rule].duration);
    var ready := Pass1(later, k);
    assert ready.eval.Ready? && ready.eval.attempt.key == k;
    assert ready.store.core == w.store.core && ready.store.rules == w.store.rules;
  }

  // A rule is edited, by any definition, between the two halves of handleTriggered, and its alert is committed.
  ghost function Edited(w: World, def: Rule, a: nat): World
    requires w.eval.Ready?
  {
    var r := w.eval.attempt.key.rule;
    SettleWrite(RecordAlert(FireAlert(EditRule(w, r, def, true), a, true)), ForgetRule(r))
  }

  lemma EditedForgets(w: World, def: Rule, a: nat)
    requires w.eval.Ready? && w.eval.attempt.key.rule in w.store.rules && a !in w.store.core.alerts
    ensures var k, w' := w.eval.attempt.key, Edited(w, def, a);
            && w'.eval == Idle && k.rule in w'.store.rules && w'.mem.rules == w.mem.rules
            && k !in w'.mem.states && k !in w'.mem.last
            && OpenFor(w'.store.core.alerts, a, k) && w'.store.rules[k.rule].rule == def
            && w'.store.core.alerts.Keys == w.store.core.alerts.Keys + {a}
  {
    var k := w.eval.attempt.key;
    var edited := EditRule(w, k.rule, def, true);
    EditLeaves(w, k.rule, def);
    var fired := FireAlert(edited, a, true);
    assert OpenFor(fired.store.core.alerts, a, k);
  }

  lemma EditLeaves(w: World, r: nat, def: Rule)
    requires r in w.store.rules
    ensures var w' := EditRule(w, r, def, true);
            && w'.eval == w.eval && w'.mem == w.mem && w'.store.rules == w.store.rules[r := RuleRow(def, w.now)]
            && w'.store.core.alerts.Keys == w.store.core.alerts.Keys && ForgetRule(r) in w'.owed
  {}

  // The memory write of the edit also drops the cooldown, so the second alert opens after no more than the duration.
  lemma EditRace(w: World, def: Rule, a: nat, b: nat)
    requires w.eval.Ready? && w.eval.attempt.key.rule in w.store.rules && w.eval.attempt.key.rule in w.mem.rules
    requires a != b && a !in w.store.core.alerts && b !in w.store.core.alerts
    ensures var k := w.eval.attempt.key;
            BothOpen(TwoPasses(Edited(w, def, a), k, w.mem.rules[k.rule].duration, b), a, b, k)
  {
    EditedForgets(w, def, a);
    UnknownConditionFires(Edited(w, def, a), w.eval.attempt.key, b);
  }

  // A reload read before the alert and installs after it: the next pass opens a second alert at once, whatever the
  // cooldown, with no edit, no silence and no restart.
  function OutdatedInstall(w: World, i: nat, a: nat, b: nat): World
    requires w.eval.Ready?
  {
    FireAlert(Pass1(Install(RecordAlert(FireAlert(w, a, true)), i), w.eval.attempt.key), b, true)
  }

  lemma ReloadRace(w: World, i: nat, a: nat, b: nat)
    requires w.eval.Ready? && w.eval.attempt.key.rule in w.store.rules && AtStage(w, i, 3)
    requires a != b && a !in w.store.core.alerts && b !in w.store.core.alerts
    requires WouldFire(w.loads[i].mem, w.now, w.eval.attempt.key)
    ensures BothOpen(OutdatedInstall(w, i, a, b), a, b, w.eval.attempt.key)
  {
    var k := w.eval.attempt.key;
    var fired := FireAlert(w, a, true);
    assert OpenFor(fired.store.core.alerts, a, k);
    var installed := Install(RecordAlert(fired), i);
    assert installed.mem == w.loads[i].mem && installed.now == w.now && installed.eval == Idle;
    var ready := Pass1(installed, k);
    assert ready.eval.Ready? && ready.eval.attempt.key == k;
    assert ready.store.core == fired.store.core;
  }

  // ---------- both can happen ----------

  const QUICK := Rule(true, 0, 5 * MINUTE, [Email], true)
  const SPOT := Key(0, 7)

  // A rule is created and loaded; a pass begins.
  const CREATED := [Create(QUICK, true), LoadRules, LoadStates(0), LoadCooldowns(0), Installing(0), BeginPass]
  // A second reload reads; the pass observes the condition on device 7.
  const OBSERVED := [LoadRules, LoadStates(1), LoadCooldowns(1), Observe(0, 7, true)]

  function Loaded(): Memory { Memory(map[0 := QUICK], map[], map[]) }

  function Created(): World {
    World(Store(Db(map[], map[]), map[0 := RuleRow(QUICK, 0)], map[], 1), Loaded(), 0, Pass(0, map[0 := QUICK]), Idle,
          multiset{}, [Loading(4, Loaded(), {})], [])
  }

  lemma QueriesOf(w: World)
    requires w.store == Created().store
    ensures ReadLast(ReadStates(ReadRules(w), |w.loads|), |w.loads|)
         == w.(loads := w.loads + [Loading(3, Loaded(), {})])
  {
    var i := |w.loads|;
    assert EnabledRules(w.store) == map[0 := QUICK] && EnabledStates(w.store) == map[];
    assert LoadLast(w.store) == map[];
    assert w.store.core.alerts.Keys == {};
    assert ReadLast(ReadStates(ReadRules(w), i), i).loads == w.loads + [Loading(3, Loaded(), {})];
  }

  lemma UnfoldThree(w: World, x: Action, w1: World, y: Action, w2: World, z: Action, w3: World, rest: seq<Action>)
    requires Do(w, x) == w1 && Do(w1, y) == w2 && Do(w2, z) == w3
    requires Undisturbed(w, x) && Undisturbed(w1, y) && Undisturbed(w2, z)
    ensures DoAll(w, [x, y, z] + rest) == DoAll(w3, rest)
    ensures AllUndisturbed(w, [x, y, z] + rest) <==> AllUndisturbed(w3, rest)
  {
    Unfold(w, x, [y, z] + rest);
    Unfold(w1, y, [z] + rest);
    Unfold(w2, z, rest);
    assert [x] + ([y, z] + rest) == [x, y, z] + rest && [y] + ([z] + rest) == [y, z] + rest;
  }

  lemma QueriesUndisturbed(w: World, i: nat)
    ensures Do(w, LoadRules) == ReadRules(w) && Undisturbed(w, LoadRules)
    ensures Do(w, LoadStates(i)) == ReadStates(w, i) && Undisturbed(w, LoadStates(i))
    ensures Do(w, LoadCooldowns(i)) == ReadLast(w, i) && Undisturbed(w, LoadCooldowns(i))
  {}

  lemma LoadOf(w: World, rest: seq<Action>)
    requires w.store == Created().store
    ensures var i := |w.loads|;
            var w' := w.(loads := w.loads + [Loading(3, Loaded(), {})]);
            && DoAll(w, [LoadRules, LoadStates(i), LoadCooldowns(i)] + rest) == DoAll(w', rest)
            && (AllUndisturbed(w, [LoadRules, LoadStates(i), LoadCooldowns(i)] + rest) <==> AllUndisturbed(w', rest))
  {
    var i, w1 := |w.loads|, ReadRules(w);
    var w2 := ReadStates(w1, i);
    QueriesOf(w);
    QueriesUndisturbed(w, i);
    QueriesUndisturbed(w1, i);
    QueriesUndisturbed(w2, i);
    UnfoldThree(w, LoadRules, w1, LoadStates(i), w2, LoadCooldowns(i), ReadLast(w2, i), rest);
  }

  lemma CreatedReached()
    ensures DoAll(Start(), CREATED) == Created() && AllUndisturbed(Start(), CREATED)
  {
    var w1 := Do(Start(), Create(QUICK, true));
    var w2 := w1.(loads := [Loading(3, Loaded(), {})]);
    var w3 := Do(w2, Installing(0));
    assert w1.store == Created().store;
    LoadOf(w1, [Installing(0), BeginPass]);
    Unfold(Start(), Create(QUICK, true), CREATED[1..]);
    assert CREATED == [Create(QUICK, true)] + CREATED[1..];
    assert CREATED[1..] == [LoadRules, LoadStates(0), LoadCooldowns(0)] + [Installing(0), BeginPass];
    assert w1.loads + [Loading(3, Loaded(), {})] == [Loading(3, Loaded(), {})];
    Unfold(w2, Installing(0), [BeginPass]);
    Unfold(w3, BeginPass, []);
    assert [Installing(0)] + [BeginPass] == [Installing(0), BeginPass];
    assert [BeginPass] + [] == [BeginPass];
    NothingOpen(w2, Loaded());
    assert w3.loads == [Loading(4, Loaded(), {})];
  }

  lemma NothingOpen(w: World, mem: Memory)
    requires w.store.core.alerts == map[] && w.eval == Idle
    ensures KeepsOpen(w, mem)
  {
    forall k ensures !HasOpen(w.store.core.alerts, k) {}
    forall k ensures StillKnown(w, mem, k) {}
  }

  lemma ObservedReached()
    ensures var w := DoAll(Created(), OBSERVED);
            && AllUndisturbed(Created(), OBSERVED)
            && w.eval == Ready(Attempt(SPOT, QUICK, 0, 0, None)) && w.store.core.alerts == map[]
            && 0 in w.store.rules && 0 in w.mem.rules
            && AtStage(w, 1, 3) && WouldFire(w.loads[1].mem, w.now, SPOT) && w.now == 0
            && w.loads[1].mem.rules == w.mem.rules == map[0 := QUICK]
  {
    var w := Created();
    var w' := w.(loads := w.loads + [Loading(3, Loaded(), {})]);
    LoadOf(w, [Observe(0, 7, true)]);
    assert OBSERVED == [LoadRules, LoadStates(1), LoadCooldowns(1)] + [Observe(0, 7, true)];
    Unfold(w', Observe(0, 7, true), []);
    assert [Observe(0, 7, true)] + [] == [Observe(0, 7, true)];
  }

  // From the empty system, undisturbed up to the commit of the first alert, and for the second race up to the
  // installation. There the second alert opens at once, although the rule asks for five minutes.
  lemma RacesHappen(def: Rule)
    ensures var w := DoAll(DoAll(Start(), CREATED), OBSERVED);
            && AllUndisturbed(Start(), CREATED) && AllUndisturbed(DoAll(Start(), CREATED), OBSERVED)
            && w.eval.Ready? && 0 in w.mem.rules
            && BothOpen(TwoPasses(Edited(w, def, 0), SPOT, w.mem.rules[0].duration, 1), 0, 1, SPOT)
            && BothOpen(OutdatedInstall(w, 1, 0, 1), 0, 1, SPOT)
            && !Spaced(Log(w, [Fire(0, true), Record] + NextAlert(1, SPOT, 1), SPOT))
  {
    CreatedReached();
    ObservedReached();
    var w := DoAll(Created(), OBSERVED);
    EditRace(w, def, 0, 1);
    ReloadRace(w, 1, 0, 1);
    OutdatedReloadBreaks(w, 1, SPOT, 0, 1);
  }

  // An alert of a rule disabled meanwhile stays open, until the next start of the program closes it without a recovery.
  lemma DisabledStaysOpen(w: World, def: Rule, a: nat)
    requires w.eval.Ready? && w.eval.attempt.key.rule in w.store.rules && a !in w.store.core.alerts && !def.enabled
    ensures a in OpenOfDisabled(Edited(w, def, a).store)
  {
    EditedForgets(w, def, a);
  }

  // The same start of all: there such an alert is committed, ...
  lemma DisabledAlertHappens(def: Rule)
    requires !def.enabled
    ensures var w := DoAll(DoAll(Start(), CREATED), OBSERVED);
            w.eval.Ready? && 0 in OpenOfDisabled(Edited(w, def, 0).store)
  {
    CreatedReached();
    ObservedReached();
    DisabledStaysOpen(DoAll(Created(), OBSERVED), def, 0);
  }

  // ... or a cooldown comes back that a restart forgets.
  lemma StaleCooldownHappens()
    ensures var w := DoAll(DoAll(Start(), CREATED), OBSERVED);
            && w.eval.Ready?
            && var w' := LateRecord(w, 0, 1, QUICK);
               && InStep(w', SPOT) && RuleCurrent(w', SPOT) && StaleCooldown(w', SPOT)
               && NextPass(Do(w', Restart), SPOT).Ready? && !NextPass(w', SPOT).Ready?
  {
    CreatedReached();
    ObservedReached();
    StartSafe();
    AllKeepsTimes(Start(), CREATED);
    AllKeepsTimes(Created(), OBSERVED);
    StaleCooldownComesBack(DoAll(Created(), OBSERVED), 0, 1);
  }
}
