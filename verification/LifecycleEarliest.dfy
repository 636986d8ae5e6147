/**
 Exactly when a second alert of one rule and device can come too early. Whatever has become of memory since the first
 one, by late writes and outdated reloads, the next pass decides: the soonest time at which memory lets the key fire.
 */
module LifecycleEarliest {
  import opened Basics
  import opened OutboxModel
  import opened LifecycleModel
  import opened LifecycleProofs
  import opened LifecycleExact
  import opened LifecycleSpacing

  // ---------- no window starts in the future ----------

  predicate Begun(states: map<Key, Occurrence>, now: nat) { forall k :: k in states ==> states[k].first <= now }

  predicate AllBegun(w: World) {
    && Begun(w.mem.states, w.now) && Begun(w.store.states, w.now)
    && (forall i {:trigger w.loads[i]} :: 0 <= i < |w.loads| ==> Begun(w.loads[i].mem.states, w.now))
  }

  lemma ReloadsBegun(w: World, w': World)
    requires AllBegun(w) && w'.loads == w.loads && w'.now >= w.now
    ensures forall i {:trigger w'.loads[i]} :: 0 <= i < |w'.loads| ==> Begun(w'.loads[i].mem.states, w'.now)
  {}

  lemma EvaluatorBegun(w: World, act: Action)
    requires TimesOk(w) && AllBegun(w) && OfEvaluator(act)
    ensures AllBegun(Do(w, act))
  {
    ReloadsBegun(w, Do(w, act));
  }

  lemma OperatorBegun(w: World, act: Action)
    requires AllBegun(w) && OfOperator(act)
    ensures AllBegun(Do(w, act))
  {
    ReloadsBegun(w, Do(w, act));
  }

  lemma QueryBegun(w: World, i: nat)
    requires AllBegun(w)
    ensures AllBegun(ReadRules(w)) && AllBegun(ReadStates(w, i)) && AllBegun(ReadLast(w, i)) && AllBegun(Install(w, i))
  {}

  lemma KeepsBegun(w: World, act: Action)
    requires TimesOk(w) && AllBegun(w)
    ensures AllBegun(Do(w, act))
  {
    if OfEvaluator(act) {
      EvaluatorBegun(w, act);
    } else if OfOperator(act) {
      OperatorBegun(w, act);
    } else {
      match act
      case LoadRules => QueryBegun(w, 0);
      case LoadStates(i) => QueryBegun(w, i);
      case LoadCooldowns(i) => QueryBegun(w, i);
      case Installing(i) => QueryBegun(w, i);
      case _ => ReloadsBegun(w, w.(now := Do(w, act).now));
    }
  }

  // What all histories keep of the times.
  ghost predicate Timed(w: World) { TimesOk(w) && AllBegun(w) && AttemptRipe(w) }

  lemma KeepsTimed(w: World, act: Action)
    requires Timed(w)
    ensures Timed(Do(w, act))
  {
    KeepsTimes(w, act);
    KeepsBegun(w, act);
    KeepsRipe(w, act);
  }

  lemma {:induction false} AllKeepTimed(w: World, acts: seq<Action>)
    requires Timed(w)
    ensures Timed(DoAll(w, acts))
    decreases |acts|
  {
    if acts != [] {
      KeepsTimed(w, acts[0]);
      AllKeepTimed(Do(w, acts[0]), acts[1..]);
    }
  }

  lemma HistoryTimed(history: seq<Action>)
    ensures Timed(DoAll(Start(), history))
  {
    StartSafe();
    AllKeepTimed(Start(), history);
  }

  // ---------- no sooner than memory allows ----------

  // Some calm continuation opens an alert of the key less than its rule's larger timer after that time.
  ghost predicate Hurries(w: World, k: Key, at: nat) {
    exists acts :: AllCalm(w, acts, k) && !AllAfter(Log(w, acts, k), at)
  }

  // An idle evaluator whose pass has just begun.
  predicate AtPass(w: World) { w.eval == Idle && w.pass == Pass(w.now, w.mem.rules) }

  // What memory holds for the key: a state that is out or missing begins anew.
  function Held(w: World, k: Key): Copy
    requires k.rule in w.mem.rules
  {
    Copy(w.mem.rules[k.rule],
         if k in w.mem.states && !w.mem.states[k].notified then w.mem.states[k].first else w.now,
         Lookup(w.mem.last, k), w.now)
  }

  lemma HeldIsCopy(w: World, k: Key, at: nat)
    requires AtPass(w) && AllBegun(w) && k.rule in w.mem.rules
    ensures MemoryOk(w, k, at, Held(w, k))
  {}

  // Without the rule nothing of memory is used.
  lemma NothingHeld(w: World, k: Key, at: nat)
    requires AtPass(w) && AllBegun(w) && k.rule !in w.mem.rules && w.now >= at
    ensures var copy := Copy(Rule(true, 0, 0, [], true), 0, Lookup(w.mem.last, k), w.now);
            MemoryOk(w, k, at, copy) && Soonest(copy) >= at + Timer(copy.rule)
  {}

  lemma NoHurry(w: World, a: nat, k: Key, at: nat)
    requires Timed(w) && AtPass(w) && TablesSince(w, a, k, at)
    requires k.rule in w.mem.rules ==> Soonest(Held(w, k)) >= at + Timer(w.mem.rules[k.rule])
    ensures !Hurries(w, k, at)
  {
    forall acts | AllCalm(w, acts, k) ensures AllAfter(Log(w, acts, k), at) {
      if k.rule in w.mem.rules {
        HeldIsCopy(w, k, at);
        LogSince(w, acts, a, k, at, Held(w, k));
      } else {
        NothingHeld(w, k, at);
        LogSince(w, acts, a, k, at, Copy(Rule(true, 0, 0, [], true), 0, Lookup(w.mem.last, k), w.now));
      }
    }
  }

  // ---------- as soon as memory allows ----------

  lemma HurriesNow(w: World, k: Key, at: nat, b: nat)
    requires Opens(w, Fire(b, true), k) && OpenedBy(w).at < at + OpenedBy(w).timer
    ensures Hurries(w, k, at)
  {
    var acts := [Fire(b, true)];
    assert acts[1..] == [] && AllCalm(w, acts, k);
    assert Log(w, acts, k) == [OpenedBy(w)];
    assert !AllAfter([OpenedBy(w)], at) by { assert [OpenedBy(w)][0].at < at + [OpenedBy(w)][0].timer; }
  }

  lemma HurriesAfter(w: World, act: Action, k: Key, at: nat)
    requires Calm(w, act, k) && !act.Fire? && Hurries(Do(w, act), k, at)
    ensures Hurries(w, k, at)
  {
    var acts :| AllCalm(Do(w, act), acts, k) && !AllAfter(Log(Do(w, act), acts, k), at);
    assert ([act] + acts)[1..] == acts;
    assert AllCalm(w, [act] + acts, k);
    assert Log(w, [act] + acts, k) == Log(Do(w, act), acts, k);
  }

  // The window runs: wait until the soonest time, and look again.
  lemma WindowHurries(w: World, k: Key, at: nat)
    requires AtPass(w) && k.rule in w.mem.rules && k.rule in w.store.rules
    requires k in w.mem.states && !w.mem.states[k].notified
    requires Soonest(Held(w, k)) < at + Timer(w.mem.rules[k.rule])
    ensures Hurries(w, k, at)
  {
    var wait := Soonest(Held(w, k)) - w.now;
    var w1 := Do(w, Wait(wait));
    var w2 := Do(w1, BeginPass);
    var w3 := Do(w2, Observe(k.rule, k.device, true));
    var b := NewId(w.store.core.alerts);
    assert w3.eval.Ready? && w3.eval.attempt.evaluatedAt == Soonest(Held(w, k));
    HurriesNow(w3, k, at, b);
    HurriesAfter(w2, Observe(k.rule, k.device, true), k, at);
    HurriesAfter(w1, BeginPass, k, at);
    HurriesAfter(w, Wait(wait), k, at);
  }

  // No window yet: it begins now.
  lemma UnseenHurries(w: World, k: Key, at: nat)
    requires AtPass(w) && k.rule in w.mem.rules && k.rule in w.store.rules && k !in w.mem.states
    requires Soonest(Held(w, k)) < at + Timer(w.mem.rules[k.rule])
    ensures Hurries(w, k, at)
  {
    var w' := Do(w, Observe(k.rule, k.device, true));
    if w'.eval.Ready? {
      var b := NewId(w.store.core.alerts);
      HurriesNow(w', k, at, b);
    } else {
      assert Held(w', k) == Held(w, k);
      WindowHurries(w', k, at);
    }
    HurriesAfter(w, Observe(k.rule, k.device, true), k, at);
  }

  // An alert is out: the condition clears and comes back.
  lemma NotifiedHurries(w: World, k: Key, at: nat)
    requires AtPass(w) && k.rule in w.mem.rules && k.rule in w.store.rules
    requires k in w.mem.states && w.mem.states[k].notified
    requires Soonest(Held(w, k)) < at + Timer(w.mem.rules[k.rule])
    ensures Hurries(w, k, at)
  {
    var w1 := Do(w, Clear(k.rule, k.device, true));
    var w2 := Do(w1, Drop);
    ClearLeaves(w, k);
    assert Held(w2, k) == Held(w, k);
    UnseenHurries(w2, k, at);
    HurriesAfter(w1, Drop, k, at);
    HurriesAfter(w, Clear(k.rule, k.device, true), k, at);
  }

  lemma ClearLeaves(w: World, k: Key)
    requires AtPass(w) && k.rule in w.mem.rules && k in w.mem.states
    ensures var w' := DropState(ClearCondition(w, k.rule, k.device, true));
            && AtPass(w') && w'.mem == w.mem.(states := w.mem.states - {k}) && w'.store.rules == w.store.rules
            && w'.now == w.now
  {}

  // ---------- the exact condition ----------

  lemma HurriesExact(w: World, a: nat, k: Key, at: nat)
    requires Timed(w) && AtPass(w) && TablesSince(w, a, k, at)
    ensures Hurries(w, k, at)
            <==> k.rule in w.mem.rules && Soonest(Held(w, k)) < at + Timer(w.mem.rules[k.rule])
  {
    if k.rule in w.mem.rules && Soonest(Held(w, k)) < at + Timer(w.mem.rules[k.rule]) {
      if k !in w.mem.states { UnseenHurries(w, k, at); }
      else if w.mem.states[k].notified { NotifiedHurries(w, k, at); }
      else { WindowHurries(w, k, at); }
    } else {
      NoHurry(w, a, k, at);
    }
  }

  ghost predicate NeverRewritten(acts: seq<Action>, k: Key) {
    forall i :: 0 <= i < |acts| ==> !Rewrites(acts[i], k)
  }

  lemma {:induction false} AllKeepTables(w: World, acts: seq<Action>, a: nat, k: Key, at: nat)
    requires Timed(w) && TablesSince(w, a, k, at) && NeverRewritten(acts, k)
    ensures Timed(DoAll(w, acts)) && TablesSince(DoAll(w, acts), a, k, at)
    decreases |acts|
  {
    if acts != [] {
      assert !Rewrites(acts[0], k);
      KeepsTimed(w, acts[0]);
      KeepsSince(w, acts[0], a, k, at, Copy(Rule(true, 0, 0, [], true), 0, None, 0));
      AllKeepTables(Do(w, acts[0]), acts[1..], a, k, at);
    }
  }

  lemma NextPassExact(w: World, a: nat, k: Key, at: nat)
    requires Timed(w) && TablesSince(w, a, k, at) && w.eval == Idle
    ensures var w' := Do(w, BeginPass);
            Hurries(w', k, at) <==> k.rule in w'.mem.rules && Soonest(Held(w', k)) < at + Timer(w'.mem.rules[k.rule])
  {
    KeepsTimed(w, BeginPass);
    KeepsSince(w, BeginPass, a, k, at, Copy(Rule(true, 0, 0, [], true), 0, None, 0));
    HurriesExact(Do(w, BeginPass), a, k, at);
  }

  // An alert of the key opens after any history. Then anything may happen but an edit or removal of its rule: silences,
  // late memory writes of earlier edits and silences, outdated reloads, restarts. When a pass begins, some calm
  // continuation opens another alert of the key less than max(duration, cooldown) after the first if and only if memory
  // has its rule and lets the key fire that soon.
  lemma SpacingExact(history: seq<Action>, a: nat, ok: bool, k: Key, acts: seq<Action>)
    requires var w0 := DoAll(Start(), history);
             Opens(w0, Fire(a, ok), k) && NeverRewritten(acts, k) && DoAll(Do(w0, Fire(a, ok)), acts).eval == Idle
    ensures var w0 := DoAll(Start(), history);
            var w := Do(DoAll(Do(w0, Fire(a, ok)), acts), BeginPass);
            var at := w0.eval.attempt.evaluatedAt;
            Hurries(w, k, at) <==> k.rule in w.mem.rules && Soonest(Held(w, k)) < at + Timer(w.mem.rules[k.rule])
  {
    var w0 := DoAll(Start(), history);
    var at := w0.eval.attempt.evaluatedAt;
    HistoryTimed(history);
    OpeningStartsSince(w0, a, ok, k);
    KeepsTimed(w0, Fire(a, ok));
    AllKeepTables(Do(w0, Fire(a, ok)), acts, a, k, at);
    NextPassExact(DoAll(Do(w0, Fire(a, ok)), acts), a, k, at);
  }
}
