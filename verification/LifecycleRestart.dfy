/**
 Memory against the tables, key by key, and what a restart can change. Nothing is assumed about which operations
 interleave; the conditions are about single memory writes.
 */
module LifecycleRestart {
  import opened Basics
  import opened OutboxModel
  import opened LifecycleModel
  import opened LifecycleProofs

  predicate SameState(m: map<Key, Occurrence>, n: map<Key, Occurrence>, k: Key) {
    (k in m <==> k in n) && (k in m ==> m[k] == n[k])
  }

  // Memory once the evaluator's pending write is done.
  function Effective(eval: Eval, states: map<Key, Occurrence>): map<Key, Occurrence> {
    match eval
    case Recording(k, _) => Notify(states, k)
    case Dropping(k) => states - {k}
    case _ => states
  }

  // FirstTriggeredAt and Notified in memory are those of the row, if the rule is enabled.
  predicate InStep(w: World, k: Key) {
    Enabled(w.store, k.rule) ==> SameState(Effective(w.eval, w.mem.states), w.store.states, k)
  }

  // Some operator has committed and will still drop the key from memory.
  ghost predicate Owes(w: World, k: Key) { exists write :: write in w.owed && Drops(write, k) }

  ghost predicate KeyInStep(w: World, k: Key) { Owes(w, k) || InStep(w, k) }

  // A late write drops only a state that the table dropped too, and a reload installs the state the table still has.
  ghost predicate Timely(w: World, act: Action, k: Key) {
    match act
    case Settle(write) =>
      write in w.owed && Drops(write, k) && Enabled(w.store, k.rule) && k in w.store.states
      ==> Owes(SettleWrite(w, write), k)
    case Installing(i) =>
      AtStage(w, i, 3) && Enabled(w.store, k.rule)
      ==> Owes(w, k) || SameState(Effective(w.eval, w.loads[i].mem.states), w.store.states, k)
    case _ => true
  }

  lemma OwesMore(w: World, w': World, k: Key)
    requires w.owed <= w'.owed && Owes(w, k)
    ensures Owes(w', k)
  {
    var write :| write in w.owed && Drops(write, k);
    assert write in w'.owed;
  }

  lemma OwesNow(w: World, write: Write, k: Key)
    requires write in w.owed && Drops(write, k)
    ensures Owes(w, k)
  {}

  // Steps that leave what is owed as it is: if memory is in step afterwards, all is well.
  lemma StaysInStep(w: World, w': World, k: Key)
    requires KeyInStep(w, k) && w'.owed == w.owed && (InStep(w, k) ==> InStep(w', k))
    ensures KeyInStep(w', k)
  {
    if Owes(w, k) { OwesMore(w, w', k); }
  }

  lemma ObserveInStep(w: World, r: nat, d: nat, ok: bool, k: Key)
    requires KeyInStep(w, k)
    ensures KeyInStep(ObserveCondition(w, r, d, ok), k)
  {
    StaysInStep(w, ObserveCondition(w, r, d, ok), k);
  }

  lemma FireInStep(w: World, a: nat, ok: bool, k: Key)
    requires KeyInStep(w, k)
    ensures KeyInStep(FireAlert(w, a, ok), k)
  {
    StaysInStep(w, FireAlert(w, a, ok), k);
  }

  lemma ClearInStep(w: World, r: nat, d: nat, ok: bool, k: Key)
    requires KeyInStep(w, k)
    ensures KeyInStep(ClearCondition(w, r, d, ok), k)
  {
    StaysInStep(w, ClearCondition(w, r, d, ok), k);
  }

  lemma WriteInStep(w: World, k: Key)
    requires KeyInStep(w, k)
    ensures KeyInStep(RecordAlert(w), k) && KeyInStep(DropState(w), k)
  {
    StaysInStep(w, RecordAlert(w), k);
    StaysInStep(w, DropState(w), k);
  }

  // Operators' commits: the rows that go are owed to memory.
  lemma CommitInStep(w: World, w': World, write: Write, k: Key)
    requires KeyInStep(w, k) && w'.mem == w.mem && w'.eval == w.eval && w'.owed == w.owed + multiset{write}
    requires !Drops(write, k) && Enabled(w'.store, k.rule) ==> Enabled(w.store, k.rule)
    requires !Drops(write, k) ==> SameState(w'.store.states, w.store.states, k)
    ensures KeyInStep(w', k)
  {
    if Owes(w, k) { OwesMore(w, w', k); }
    else if Drops(write, k) { OwesNow(w', write, k); }
  }

  lemma ResolveInStep(w: World, a: nat, ok: bool, k: Key)
    requires KeyInStep(w, k)
    ensures KeyInStep(ResolveByHand(w, a, ok), k)
  {
    var w' := ResolveByHand(w, a, ok);
    if w'.owed == w.owed {
      StaysInStep(w, w', k);
    } else {
      var alert := w.store.core.alerts[a];
      CommitInStep(w, w', Forget(Key(alert.rule.value, alert.device)), k);
    }
  }

  lemma SilenceInStep(w: World, d: nat, ok: bool, k: Key)
    requires KeyInStep(w, k)
    ensures KeyInStep(SilenceDevice(w, d, ok), k)
  {
    var w' := SilenceDevice(w, d, ok);
    if w' != w { CommitInStep(w, w', ForgetDevice(d), k); }
  }

  lemma EditInStep(w: World, r: nat, rule: Rule, ok: bool, k: Key)
    requires KeyInStep(w, k)
    ensures KeyInStep(EditRule(w, r, rule, ok), k)
  {
    if ok && r in w.store.rules { CommitInStep(w, EditRule(w, r, rule, ok), ForgetRule(r), k); }
  }

  lemma RemoveInStep(w: World, r: nat, ok: bool, k: Key)
    requires KeyInStep(w, k)
    ensures KeyInStep(RemoveRule(w, r, ok), k)
  {
    if ok && r in w.store.rules { CommitInStep(w, RemoveRule(w, r, ok), ForgetRule(r), k); }
  }

  lemma CreateInStep(w: World, rule: Rule, ok: bool, k: Key)
    requires TimesOk(w) && KeyInStep(w, k)
    ensures KeyInStep(CreateRule(w, rule, ok), k)
  {
    StaysInStep(w, CreateRule(w, rule, ok), k);
  }

  lemma RestartInStep(w: World, k: Key)
    ensures KeyInStep(Restarted(w), k)
  {}

  lemma QueriesInStep(w: World, i: nat, k: Key)
    requires KeyInStep(w, k)
    ensures KeyInStep(ReadRules(w), k) && KeyInStep(ReadStates(w, i), k) && KeyInStep(ReadLast(w, i), k)
  {
    StaysInStep(w, ReadRules(w), k);
    StaysInStep(w, ReadStates(w, i), k);
    StaysInStep(w, ReadLast(w, i), k);
  }

  lemma DeliveryInStep(w: World, a: nat, step: Step, k: Key)
    requires KeyInStep(w, k)
    ensures KeyInStep(AcknowledgeAlert(w, a), k) && KeyInStep(Delivered(w, step), k)
  {
    DeliveryKeepsAlerts(w, step);
    StaysInStep(w, AcknowledgeAlert(w, a), k);
    StaysInStep(w, Delivered(w, step), k);
  }

  lemma PassInStep(w: World, d: nat, k: Key)
    requires KeyInStep(w, k)
    ensures KeyInStep(StartPass(w), k) && KeyInStep(Clocked(w), k) && KeyInStep(w.(now := w.now + d), k)
  {
    StaysInStep(w, StartPass(w), k);
    StaysInStep(w, Clocked(w), k);
    StaysInStep(w, w.(now := w.now + d), k);
  }

  lemma SettleInStep(w: World, write: Write, k: Key)
    requires TimesOk(w) && KeyInStep(w, k) && write in w.owed
    ensures KeyInStep(SettleWrite(w, write), k) <==> Timely(w, Settle(write), k)
  {
    var w' := SettleWrite(w, write);
    if !Drops(write, k) {
      if Owes(w, k) {
        var other :| other in w.owed && Drops(other, k);
        OwesNow(w', other, k);
      }
    }
  }

  lemma InstallInStep(w: World, i: nat, k: Key)
    requires KeyInStep(w, k)
    ensures KeyInStep(Install(w, i), k) <==> Timely(w, Installing(i), k)
  {
    var w' := Install(w, i);
    if Owes(w, k) { OwesMore(w, w', k); } else { NothingOwed(w, w', k); }
  }

  lemma EvaluatorInStep(w: World, act: Action, k: Key)
    requires KeyInStep(w, k) && OfEvaluator(act)
    ensures KeyInStep(Do(w, act), k)
  {
    match act
    case BeginPass => PassInStep(w, 0, k);
    case ReadClock => PassInStep(w, 0, k);
    case Observe(r, d, ok) => ObserveInStep(w, r, d, ok, k);
    case Fire(a, ok) => FireInStep(w, a, ok, k);
    case Clear(r, d, ok) => ClearInStep(w, r, d, ok, k);
    case _ => WriteInStep(w, k);
  }

  lemma OperatorInStep(w: World, act: Action, k: Key)
    requires TimesOk(w) && KeyInStep(w, k) && OfOperator(act)
    ensures KeyInStep(Do(w, act), k)
  {
    match act
    case Acknowledge(a) => DeliveryInStep(w, a, Reclaiming, k);
    case Resolve(a, ok) => ResolveInStep(w, a, ok, k);
    case Silence(d, ok) => SilenceInStep(w, d, ok, k);
    case Edit(r, rule, ok) => EditInStep(w, r, rule, ok, k);
    case Remove(r, ok) => RemoveInStep(w, r, ok, k);
    case Create(rule, ok) => CreateInStep(w, rule, ok, k);
  }

  // A step keeps memory in step with the table, as far as nothing is owed, if and only if it is timely.
  lemma InStepExact(w: World, act: Action, k: Key)
    requires TimesOk(w) && KeyInStep(w, k)
    ensures KeyInStep(Do(w, act), k) <==> Timely(w, act, k)
  {
    if OfEvaluator(act) {
      EvaluatorInStep(w, act, k);
    } else if OfOperator(act) {
      OperatorInStep(w, act, k);
    } else {
      match act
      case Wait(d) => PassInStep(w, d, k);
      case Settle(write) => if write in w.owed { SettleInStep(w, write, k); }
      case Installing(i) => InstallInStep(w, i, k);
      case LoadRules => QueriesInStep(w, 0, k);
      case LoadStates(i) => QueriesInStep(w, i, k);
      case LoadCooldowns(i) => QueriesInStep(w, i, k);
      case Restart => RestartInStep(w, k);
      case Deliver(step) => DeliveryInStep(w, 0, step, k);
    }
  }

  lemma NothingOwed(w: World, w': World, k: Key)
    requires w'.owed == w.owed && !Owes(w, k)
    ensures !Owes(w', k)
  {}

  ghost predicate AllTimely(w: World, acts: seq<Action>, k: Key)
    decreases |acts|
  {
    acts == [] || (Timely(w, acts[0], k) && AllTimely(Do(w, acts[0]), acts[1..], k))
  }

  lemma {:induction false} AllInStep(w: World, acts: seq<Action>, k: Key)
    requires TimesOk(w) && KeyInStep(w, k) && AllTimely(w, acts, k)
    ensures KeyInStep(DoAll(w, acts), k)
    decreases |acts|
  {
    if acts != [] {
      InStepExact(w, acts[0], k);
      KeepsTimes(w, acts[0]);
      AllInStep(Do(w, acts[0]), acts[1..], k);
    }
  }

  // From any world in which it is in step, as after every restart: while nothing is owed for the key, memory has the
  // row of an enabled rule, and no more. Edits, silences, resolutions, stale rule copies and failing transactions may
  // interleave.
  lemma Mirrored(history: seq<Action>, acts: seq<Action>, k: Key)
    requires var w := DoAll(Start(), history);
             KeyInStep(w, k) && AllTimely(w, acts, k) && !Owes(DoAll(w, acts), k)
    ensures InStep(DoAll(DoAll(Start(), history), acts), k)
  {
    StartSafe();
    AllKeepsTimes(Start(), history);
    AllInStep(DoAll(Start(), history), acts, k);
  }

  // ---------- restarts ----------

  // Memory has the rule as it was last edited, ...
  predicate RuleCurrent(w: World, k: Key) {
    && (k.rule in w.mem.rules <==> Enabled(w.store, k.rule))
    && (k.rule in w.mem.rules ==> w.mem.rules[k.rule] == w.store.rules[k.rule].rule)
  }

  // ... and a cooldown from before that edit.
  predicate StaleCooldown(w: World, k: Key) {
    k.rule in w.store.rules && k in w.mem.last && w.mem.last[k] < w.store.rules[k.rule].updated
  }

  predicate CaughtUp(w: World, k: Key) { RuleCurrent(w, k) && !(k.rule in w.mem.rules && StaleCooldown(w, k)) }

  predicate Cooling(w: World, k: Key) {
    k.rule in w.mem.rules && k in w.mem.last && w.now - w.mem.last[k] < w.mem.rules[k.rule].cooldown
  }

  // Memory says that the alert is out, or that the condition does not last long enough yet.
  predicate Withheld(w: World, k: Key) {
    && k.rule in w.mem.rules
    && var seen := if k in w.mem.states then w.mem.states[k] else Occurrence(w.now, false);
       seen.notified || w.now - seen.first < w.mem.rules[k.rule].duration
  }

  // What the next pass makes of the condition.
  ghost function NextPass(w: World, k: Key): Eval {
    Do(Do(w, BeginPass), Observe(k.rule, k.device, true)).eval
  }

  // In any world with a current rule: a restart lets a key fire that would not have fired without it if and only if
  // memory withholds it, or its cooldown runs.
  lemma RestartExact(w: World, k: Key)
    requires RuleCurrent(w, k) && w.eval == Idle && NextPass(Do(w, Restart), k).Ready?
    ensures !NextPass(w, k).Ready? <==> Withheld(w, k) || Cooling(w, k)
  {}

  // What a restart leaves of the tables, as far as the key is concerned.
  predicate Alike(s: Store, t: Store, k: Key) {
    && t.rules == s.rules && t.core.alerts.Keys == s.core.alerts.Keys && SameState(s.states, t.states, k)
    && forall a {:trigger t.core.alerts[a]} :: a in s.core.alerts ==>
         && (Concerns(t.core.alerts[a], k) <==> Concerns(s.core.alerts[a], k))
         && (Concerns(s.core.alerts[a], k) ==> t.core.alerts[a] == s.core.alerts[a])
  }

  // v may lag behind w in memory: for the key only by a cooldown that is newer or not in w at all.
  ghost predicate Behind(w: World, v: World, k: Key) {
    && w.eval == v.eval == Idle && v.now == w.now && v.store.rules == w.store.rules
    && (k.rule in w.mem.rules <==> k.rule in v.mem.rules)
    && (k.rule in w.mem.rules ==>
          && Alike(w.store, v.store, k)
          && w.mem.rules[k.rule] == v.mem.rules[k.rule]
          && SameState(w.mem.states, v.mem.states, k)
          && (k in w.mem.last ==> k in v.mem.last && w.mem.last[k] <= v.mem.last[k]))
  }

  lemma LaterCooldownFiresLess(w: World, v: World, k: Key)
    requires Behind(w, v, k)
    ensures NextPass(v, k).Ready? ==>
              && NextPass(w, k).Ready?
              && NextPass(w, k).attempt.(last := None) == NextPass(v, k).attempt.(last := None)
  {}

  // One pass of the evaluator over the key, some time after the last one.
  datatype Visit = Visit(wait: nat, holds: bool, stateCommits: bool, newAlert: nat, alertCommits: bool)

  function Begun(w: World, visit: Visit): World { StartPass(w.(now := w.now + visit.wait)) }

  function Observed(w: World, k: Key, visit: Visit): World {
    ObserveCondition(Begun(w, visit), k.rule, k.device, visit.stateCommits)
  }

  ghost function Visited(w: World, k: Key, visit: Visit): World {
    if visit.holds then RecordAlert(FireAlert(Observed(w, k, visit), visit.newAlert, visit.alertCommits))
    else DropState(ClearCondition(Begun(w, visit), k.rule, k.device, visit.stateCommits))
  }

  predicate FiresIn(w: World, k: Key, visit: Visit) {
    visit.holds && Fires(Observed(w, k, visit), visit.newAlert, visit.alertCommits)
  }

  ghost predicate NeverFires(w: World, k: Key, visits: seq<Visit>)
    decreases |visits|
  {
    visits == [] || (!FiresIn(w, k, visits[0]) && NeverFires(Visited(w, k, visits[0]), k, visits[1..]))
  }

  // The two passes that begin are alike as far as the key is concerned.
  predicate SamePass(w: World, v: World, k: Key) {
    && w.pass.now == v.pass.now && (k.rule in w.pass.rules <==> k.rule in v.pass.rules)
    && (k.rule in w.pass.rules ==> k.rule in w.mem.rules && w.pass.rules[k.rule] == v.pass.rules[k.rule])
  }

  lemma BegunBehind(w: World, v: World, k: Key, visit: Visit)
    requires Behind(w, v, k)
    ensures Behind(Begun(w, visit), Begun(v, visit), k) && SamePass(Begun(w, visit), Begun(v, visit), k)
  {}

  lemma ObserveBehind(w: World, v: World, k: Key, ok: bool)
    requires Behind(w, v, k) && SamePass(w, v, k)
    ensures var w', v' := ObserveCondition(w, k.rule, k.device, ok), ObserveCondition(v, k.rule, k.device, ok);
            && (w'.eval == Idle || w'.eval.Ready?) && (v'.eval == Idle || v'.eval.Ready?)
            && (v'.eval.Ready? ==> w'.eval.Ready? && w'.eval.attempt.key == v'.eval.attempt.key)
            && w'.store.core == w.store.core && v'.store.core == v.store.core
            && (k.rule in w.mem.rules ==> v'.store.core.alerts.Keys == w'.store.core.alerts.Keys)
            && Behind(w'.(eval := Idle), v'.(eval := Idle), k)
  {}

  lemma SameToClose(s: Store, t: Store, k: Key)
    requires Alike(s, t, k)
    ensures OpenForKey(t.core, k) == OpenForKey(s.core, k)
  {
    forall a | a in s.core.alerts ensures a in OpenForKey(t.core, k) <==> a in OpenForKey(s.core, k) {
      assert t.core.alerts[a] == t.core.alerts[a];
    }
  }

  lemma ClosedAlike(s: Store, t: Store, k: Key, now: nat, ids: set<nat>, flag: bool)
    requires Alike(s, t, k)
    ensures var s' := s.(core := ClosedSet(s.core, now, SameFlag(ids, flag)), states := s.states - {k});
            var t' := t.(core := ClosedSet(t.core, now, SameFlag(ids, flag)), states := t.states - {k});
            Alike(s', t', k)
  {}

  function Cleared(w: World, k: Key): World
    requires k.rule in w.pass.rules && k in w.mem.states
  {
    var ids := if w.mem.states[k].notified then OpenForKey(w.store.core, k) else {};
    var core := ClosedSet(w.store.core, w.now, SameFlag(ids, w.pass.rules[k.rule].notifyRecovery));
    w.(store := w.store.(core := core, states := w.store.states - {k}), mem := w.mem.(states := w.mem.states - {k}))
  }

  // A condition clears: what handleResolved leaves, since nothing blocks the close.
  lemma ClearIs(w: World, k: Key, ok: bool)
    requires w.eval == Idle
    ensures DropState(ClearCondition(w, k.rule, k.device, ok))
         == if k.rule in w.pass.rules && k in w.mem.states && ok then Cleared(w, k) else w
  {}

  lemma ClearedBehind(w: World, v: World, k: Key)
    requires Behind(w, v, k) && SamePass(w, v, k) && k.rule in w.pass.rules && k in w.mem.states
    ensures Behind(Cleared(w, k), Cleared(v, k), k)
  {
    var ids := if w.mem.states[k].notified then OpenForKey(w.store.core, k) else {};
    SameToClose(w.store, v.store, k);
    ClosedAlike(w.store, v.store, k, w.now, ids, w.pass.rules[k.rule].notifyRecovery);
  }

  lemma ClearBehind(w: World, v: World, k: Key, ok: bool)
    requires Behind(w, v, k) && SamePass(w, v, k)
    ensures Behind(DropState(ClearCondition(w, k.rule, k.device, ok)),
                   DropState(ClearCondition(v, k.rule, k.device, ok)), k)
  {
    ClearIs(w, k, ok);
    ClearIs(v, k, ok);
    if k.rule in w.pass.rules && k in w.mem.states && ok { ClearedBehind(w, v, k); }
  }

  lemma NotFired(w: World, a: nat, ok: bool)
    requires (w.eval == Idle || w.eval.Ready?) && !Fires(w, a, ok)
    ensures RecordAlert(FireAlert(w, a, ok)) == w.(eval := Idle)
  {}

  lemma StaysBehind(w: World, v: World, k: Key, visit: Visit)
    requires Behind(w, v, k) && !FiresIn(w, k, visit)
    ensures !FiresIn(v, k, visit) && Behind(Visited(w, k, visit), Visited(v, k, visit), k)
  {
    BegunBehind(w, v, k, visit);
    if visit.holds {
      ObserveBehind(Begun(w, visit), Begun(v, visit), k, visit.stateCommits);
      NotFired(Observed(w, k, visit), visit.newAlert, visit.alertCommits);
      NotFired(Observed(v, k, visit), visit.newAlert, visit.alertCommits);
    } else {
      ClearBehind(Begun(w, visit), Begun(v, visit), k, visit.stateCommits);
    }
  }

  lemma {:induction false} NeverFirst(w: World, v: World, k: Key, visits: seq<Visit>)
    requires Behind(w, v, k) && NeverFires(w, k, visits)
    ensures NeverFires(v, k, visits)
    decreases |visits|
  {
    if visits != [] {
      StaysBehind(w, v, k, visits[0]);
      NeverFirst(Visited(w, k, visits[0]), Visited(v, k, visits[0]), k, visits[1..]);
    }
  }

  // ---------- keys in step ----------

  lemma MigratedAlike(w: World, k: Key)
    requires Enabled(w.store, k.rule)
    ensures Alike(w.store, Migrated(w.store), k)
  {}

  lemma LoadedIsBehind(w: World, k: Key)
    requires InStep(w, k) && CaughtUp(w, k) && w.eval == Idle
    requires k.rule in w.mem.rules && k in w.mem.last ==>
               k in LoadLast(w.store) && w.mem.last[k] <= LoadLast(w.store)[k]
    ensures Behind(w, Do(w, Restart), k)
  {
    if k.rule in w.mem.rules {
      MigratedAlike(w, k);
      MigrationKeepsCooldowns(w.store, k);
    }
  }

  lemma RestartIsBehind(history: seq<Action>, k: Key)
    requires var w := DoAll(Start(), history);
             InStep(w, k) && CaughtUp(w, k) && w.eval == Idle
    ensures var w := DoAll(Start(), history); Behind(w, Do(w, Restart), k)
  {
    var w := DoAll(Start(), history);
    if k.rule in w.mem.rules && k in w.mem.last { ReloadKeepsCooldowns(history, k); }
    LoadedIsBehind(w, k);
  }

  lemma MigrationKeepsCooldowns(store: Store, k: Key)
    ensures k in LoadLast(Migrated(store)) <==> k in LoadLast(store)
    ensures k in LoadLast(store) ==> LoadLast(Migrated(store))[k] == LoadLast(store)[k]
  {
    forall a ensures Eligible(Migrated(store), a, k) <==> Eligible(store, a, k) {}
    if k in LoadLast(store) {
      assert IsLatest(store, k, LoadLast(store)[k]) && IsLatest(Migrated(store), k, LoadLast(Migrated(store))[k]);
    }
  }

  // Whatever happened before: if memory is in step with the row of the key and has its rule as last edited, and no
  // cooldown from before that edit, a restart lets the key fire only if it would have fired without the restart, in the
  // same window ...
  lemma RestartNeverEarlier(history: seq<Action>, k: Key)
    requires var w := DoAll(Start(), history);
             InStep(w, k) && CaughtUp(w, k) && w.eval == Idle
    ensures var w := DoAll(Start(), history);
            var live, after := NextPass(w, k), NextPass(Do(w, Restart), k);
            after.Ready? ==> live.Ready? && live.attempt.(last := None) == after.attempt.(last := None)
  {
    var w := DoAll(Start(), history);
    RestartIsBehind(history, k);
    LaterCooldownFiresLess(w, Do(w, Restart), k);
  }

  // ... and over any further passes, whatever they observe and whichever transactions fail, the restarted process does
  // not open an alert of the key before the other would have.
  lemma RestartNeverFirst(history: seq<Action>, k: Key, visits: seq<Visit>)
    requires var w := DoAll(Start(), history);
             InStep(w, k) && CaughtUp(w, k) && w.eval == Idle
    ensures var w := DoAll(Start(), history); NeverFires(w, k, visits) ==> NeverFires(Do(w, Restart), k, visits)
  {
    var w := DoAll(Start(), history);
    RestartIsBehind(history, k);
    if NeverFires(w, k, visits) { NeverFirst(w, Do(w, Restart), k, visits); }
  }

  // With a cooldown from before the last edit the restart lets the key fire earlier exactly while that cooldown runs.
  lemma RestartEarlierExact(history: seq<Action>, k: Key)
    requires var w := DoAll(Start(), history);
             InStep(w, k) && RuleCurrent(w, k) && w.eval == Idle && NextPass(Do(w, Restart), k).Ready?
    ensures var w := DoAll(Start(), history);
            !NextPass(w, k).Ready? <==> StaleCooldown(w, k) && Cooling(w, k)
  {
    var w := DoAll(Start(), history);
    RestartExact(w, k);
    if CaughtUp(w, k) { RestartNeverEarlier(history, k); }
    if Withheld(w, k) { InStepNeverWithholds(w, k); }
  }

  lemma InStepNeverWithholds(w: World, k: Key)
    requires InStep(w, k) && RuleCurrent(w, k) && w.eval == Idle && NextPass(Do(w, Restart), k).Ready?
    ensures !Withheld(w, k)
  {}

  // ---------- such a cooldown can come back ----------

  // An alert is committed, its rule is edited some time later, by the same definition say, and memory is cleared before
  // the evaluator writes down the cooldown.
  ghost function LateRecord(w: World, a: nat, wait: nat, def: Rule): World
    requires w.eval.Ready?
  {
    var fired := FireAlert(w, a, true);
    var r := w.eval.attempt.key.rule;
    RecordAlert(SettleWrite(EditRule(fired.(now := fired.now + wait), r, def, true), ForgetRule(r)))
  }

  lemma LateRecordLeaves(w: World, a: nat, wait: nat, def: Rule)
    requires Fires(w, a, true) && TimesOk(w)
    ensures var k, w' := w.eval.attempt.key, LateRecord(w, a, wait, def);
            && w'.eval == Idle && w'.now == w.now + wait && w'.mem.rules == w.mem.rules
            && k !in w'.mem.states && k !in w'.store.states
            && k in w'.mem.last && w'.mem.last[k] == w.eval.attempt.evaluatedAt
            && w'.store.rules == w.store.rules[k.rule := RuleRow(def, w.now + wait)]
  {}

  lemma OldAlertsDoNotCount(w: World, a: nat, wait: nat, def: Rule)
    requires Fires(w, a, true) && TimesOk(w) && wait >= 1
    ensures w.eval.attempt.key !in LoadLast(LateRecord(w, a, wait, def).store)
  {
    var k, w' := w.eval.attempt.key, LateRecord(w, a, wait, def);
    var fired := FireAlert(w, a, true);
    KeepsTimesFire(w, a, true);
    forall b | b in w'.store.core.alerts ensures !Eligible(w'.store, b, k) {
      assert b in fired.store.core.alerts && AlertTimes(fired, b);
      assert w'.store.core.alerts[b].triggeredAt == fired.store.core.alerts[b].triggeredAt;
    }
  }

  lemma UnknownFires(w: World, k: Key)
    requires Enabled(w.store, k.rule) && w.store.rules[k.rule].rule.duration == 0
    requires k !in w.store.states && k !in LoadLast(w.store)
    ensures NextPass(Do(w, Restart), k).Ready?
  {
    MigrationKeepsCooldowns(w.store, k);
  }

  // A key in step whose stale cooldown still runs, while a restart lets it fire at once.
  lemma StaleCooldownComesBack(w: World, a: nat, wait: nat)
    requires Fires(w, a, true) && TimesOk(w) && w.eval.attempt.key.rule in w.mem.rules
    requires var def, t := w.mem.rules[w.eval.attempt.key.rule], w.eval.attempt;
             def.enabled && def.duration == 0 && 1 <= wait && w.now + wait < t.evaluatedAt + def.cooldown
    ensures var k := w.eval.attempt.key;
            var w' := LateRecord(w, a, wait, w.mem.rules[k.rule]);
            && InStep(w', k) && RuleCurrent(w', k) && w'.eval == Idle && StaleCooldown(w', k) && Cooling(w', k)
            && NextPass(Do(w', Restart), k).Ready? && !NextPass(w', k).Ready?
  {
    var k := w.eval.attempt.key;
    var def := w.mem.rules[k.rule];
    var w' := LateRecord(w, a, wait, def);
    LateRecordLeaves(w, a, wait, def);
    OldAlertsDoNotCount(w, a, wait, def);
    UnknownFires(w', k);
    RestartExact(w', k);
  }
}
