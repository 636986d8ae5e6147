/**
 How far apart the alerts of one rule and device are while nothing makes memory forget, and how a reload can spoil it:
 reading the tables before an alert and installing what it read afterwards. LifecycleEarliest has the exact condition.
 */
module LifecycleSpacing {
  import opened Basics
  import opened OutboxModel
  import opened LifecycleModel
  import opened LifecycleProofs

  // What starts the key afresh: an edit or removal of its rule, a silence of its device, and the memory write that
  // follows it.
  predicate Resets(w: World, act: Action, k: Key) {
    || (act.Edit? && act.commits && act.rule == k.rule)
    || (act.Remove? && act.commits && act.rule == k.rule)
    || (act.Silence? && act.commits && act.device == k.device)
    || (act.Settle? && act.write in w.owed && DropsCooldown(act.write, k))
  }

  // Since the reload read the states an alert of the key was committed and recorded.
  ghost predicate Outdated(w: World, i: nat, k: Key) {
    && AtStage(w, i, 3) && !(w.eval.Recording? && w.eval.key == k)
    && exists a :: a in w.store.core.alerts && Concerns(w.store.core.alerts[a], k) && a !in w.loads[i].known
  }

  ghost predicate Calm(w: World, act: Action, k: Key) {
    !Resets(w, act, k) && (act.Installing? ==> !Outdated(w, act.load, k))
  }

  ghost predicate AllCalm(w: World, acts: seq<Action>, k: Key)
    decreases |acts|
  {
    acts == [] || (Calm(w, acts[0], k) && AllCalm(Do(w, acts[0]), acts[1..], k))
  }

  function Timer(rule: Rule): nat { Max(rule.duration, rule.cooldown) }

  // An alert opened for a key: when it was evaluated, and the larger of its rule's two timers.
  datatype Opened = Opened(at: nat, timer: nat)

  predicate Opens(w: World, act: Action, k: Key) {
    act.Fire? && Fires(w, act.alert, act.commits) && w.eval.attempt.key == k
  }

  function OpenedBy(w: World): Opened
    requires w.eval.Ready?
  {
    Opened(w.eval.attempt.evaluatedAt, Timer(w.eval.attempt.rule))
  }

  ghost function Log(w: World, acts: seq<Action>, k: Key): seq<Opened>
    decreases |acts|
  {
    if acts == [] then []
    else if Opens(w, acts[0], k) then [OpenedBy(w)] + Log(Do(w, acts[0]), acts[1..], k)
    else Log(Do(w, acts[0]), acts[1..], k)
  }

  ghost predicate AttemptRipe(w: World) {
    w.eval.Ready? ==>
      var t := w.eval.attempt;
      && t.evaluatedAt - t.first >= t.rule.duration
      && (t.last.Some? ==> t.evaluatedAt - t.last.value >= t.rule.cooldown)
  }

  // ---------- what is known of a key after one of its alerts ----------

  predicate LaterOrNotified(m: map<Key, Occurrence>, k: Key, at: nat) {
    k in m ==> m[k].notified || m[k].first >= at
  }

  predicate KnowsCooldown(mem: Memory, k: Key, at: nat) { k in mem.last && mem.last[k] >= at }

  // The row of an alert, still counting for the cooldown of its rule.
  predicate Counts(w: World, a: nat, k: Key, at: nat) {
    Eligible(w.store, a, k) && at <= w.store.core.alerts[a].triggeredAt
  }

  predicate MemorySince(w: World, k: Key, at: nat) {
    if w.eval.Recording? && w.eval.key == k then w.eval.at >= at
    else KnowsCooldown(w.mem, k, at) && LaterOrNotified(w.mem.states, k, at)
  }

  predicate LoadSince(load: Loading, a: nat, k: Key, at: nat) {
    a in load.known ==> LaterOrNotified(load.mem.states, k, at) && (load.stage == 3 ==> KnowsCooldown(load.mem, k, at))
  }

  predicate AttemptSince(w: World, k: Key, at: nat) {
    w.eval.Ready? && w.eval.attempt.key == k ==>
      w.eval.attempt.first >= at && w.eval.attempt.last.Some? && w.eval.attempt.last.value >= at
  }

  // Alert a of the key, evaluated at that time, is in the tables, and so is what follows from it.
  predicate TablesSince(w: World, a: nat, k: Key, at: nat) {
    && Counts(w, a, k, at) && w.pass.now >= at
    && LaterOrNotified(w.store.states, k, at)
    && (forall i {:trigger w.loads[i]} :: 0 <= i < |w.loads| ==> LoadSince(w.loads[i], a, k, at))
  }

  // A copy that may not know of the alert: its rule, the earliest start of a window, its cooldown, and the time.
  datatype Copy = Copy(rule: Rule, first: nat, last: Option<nat>, from: nat)

  // The soonest that copy lets the key fire.
  function Soonest(copy: Copy): nat {
    Max(Max(copy.from, copy.first + copy.rule.duration),
        if copy.last.Some? then copy.last.value + copy.rule.cooldown else 0)
  }

  // Memory is still that copy, but for states that were dropped and began again.
  predicate StillCopy(w: World, k: Key, copy: Copy) {
    && (k.rule in w.mem.rules ==> w.mem.rules[k.rule] == copy.rule)
    && (k.rule in w.pass.rules ==> w.pass.rules[k.rule] == copy.rule)
    && Lookup(w.mem.last, k) == copy.last
    && LaterOrNotified(w.mem.states, k, copy.first)
    && !(w.eval.Recording? && w.eval.key == k)
  }

  predicate AttemptOfCopy(w: World, k: Key, copy: Copy) {
    w.eval.Ready? && w.eval.attempt.key == k ==>
      w.eval.attempt.rule == copy.rule && w.eval.attempt.evaluatedAt >= Soonest(copy)
  }

  // Memory knows of the alert, or it is still the copy; likewise for an attempt in flight.
  predicate MemoryOk(w: World, k: Key, at: nat, copy: Copy) {
    && copy.first <= copy.from <= w.pass.now
    && (MemorySince(w, k, at) || StillCopy(w, k, copy))
    && (AttemptSince(w, k, at) || AttemptOfCopy(w, k, copy))
  }

  // ---------- what one step keeps of that ----------

  predicate Rewrites(act: Action, k: Key) { (act.Edit? || act.Remove?) && act.commits && act.rule == k.rule }

  lemma LoadedCooldown(w: World, a: nat, k: Key, at: nat)
    requires Counts(w, a, k, at)
    ensures k in LoadLast(w.store) && LoadLast(w.store)[k] >= at
  {
    assert IsLatest(w.store, k, LoadLast(w.store)[k]);
  }

  // Steps that leave reloads alone.
  lemma TablesFrame(w: World, w': World, a: nat, k: Key, at: nat)
    requires TablesSince(w, a, k, at) && w'.loads == w.loads && w'.pass.now >= at
    requires Counts(w', a, k, at) && LaterOrNotified(w'.store.states, k, at)
    ensures TablesSince(w', a, k, at)
  {}

  // Steps that leave memory alone and start no attempt for the key.
  lemma MemoryFrame(w: World, w': World, k: Key, at: nat, copy: Copy)
    requires MemoryOk(w, k, at, copy) && w'.mem == w.mem && w'.pass == w.pass
    requires w'.eval == w.eval || (!(w.eval.Recording? && w.eval.key == k) && w'.eval != w.eval
               && !(w'.eval.Ready? && w'.eval.attempt.key == k) && !(w'.eval.Recording? && w'.eval.key == k))
    ensures MemoryOk(w', k, at, copy)
  {}

  // One more query of a reload.
  lemma QueryFrame(w: World, w': World, i: nat, a: nat, k: Key, at: nat)
    requires TablesSince(w, a, k, at) && w' == w.(loads := w'.loads)
    requires i < |w'.loads| && LoadSince(w'.loads[i], a, k, at)
    requires forall j {:trigger w'.loads[j]} :: 0 <= j < |w'.loads| && j != i
               ==> j < |w.loads| && w'.loads[j] == w.loads[j]
    ensures TablesSince(w', a, k, at)
  {
    forall j | 0 <= j < |w'.loads| ensures LoadSince(w'.loads[j], a, k, at) {
      var load := w'.loads[j];
      if j != i { assert load == w.loads[j]; }
    }
  }

  lemma QueriesKeep(w: World, i: nat, a: nat, k: Key, at: nat)
    requires TablesSince(w, a, k, at)
    ensures TablesSince(ReadRules(w), a, k, at) && TablesSince(ReadStates(w, i), a, k, at)
    ensures TablesSince(ReadLast(w, i), a, k, at)
  {
    QueryFrame(w, ReadRules(w), |w.loads|, a, k, at);
    if i < |w.loads| {
      LoadedCooldown(w, a, k, at);
      assert LoadSince(w.loads[i], a, k, at);
      QueryFrame(w, ReadStates(w, i), i, a, k, at);
      QueryFrame(w, ReadLast(w, i), i, a, k, at);
    }
  }

  lemma QueriesKeepMemory(w: World, i: nat, k: Key, at: nat, copy: Copy)
    requires MemoryOk(w, k, at, copy)
    ensures MemoryOk(ReadRules(w), k, at, copy) && MemoryOk(ReadStates(w, i), k, at, copy)
    ensures MemoryOk(ReadLast(w, i), k, at, copy)
  {
    MemoryFrame(w, ReadRules(w), k, at, copy);
    MemoryFrame(w, ReadStates(w, i), k, at, copy);
    MemoryFrame(w, ReadLast(w, i), k, at, copy);
  }

  lemma InstallKeeps(w: World, i: nat, a: nat, k: Key, at: nat, copy: Copy)
    requires TablesSince(w, a, k, at)
    ensures TablesSince(Install(w, i), a, k, at)
    ensures MemoryOk(w, k, at, copy) && !Outdated(w, i, k) ==> MemoryOk(Install(w, i), k, at, copy)
  {
    var w' := Install(w, i);
    if AtStage(w, i, 3) {
      assert LoadSince(w.loads[i], a, k, at);
      forall j | 0 <= j < |w'.loads| ensures LoadSince(w'.loads[j], a, k, at) {
        assert LoadSince(w.loads[j], a, k, at);
      }
    }
  }

  lemma RestartKeeps(w: World, a: nat, k: Key, at: nat, copy: Copy)
    requires TablesSince(w, a, k, at)
    ensures TablesSince(Restarted(w), a, k, at)
    ensures MemoryOk(w, k, at, copy) ==> MemoryOk(Restarted(w), k, at, copy)
  {
    LoadedCooldown(w.(store := Migrated(w.store)), a, k, at);
  }

  lemma ObserveKeeps(w: World, r: nat, d: nat, ok: bool, a: nat, k: Key, at: nat)
    requires TablesSince(w, a, k, at)
    ensures TablesSince(ObserveCondition(w, r, d, ok), a, k, at)
  {
    TablesFrame(w, ObserveCondition(w, r, d, ok), a, k, at);
  }

  lemma ObserveKeepsMemory(w: World, r: nat, d: nat, ok: bool, k: Key, at: nat, copy: Copy)
    requires MemoryOk(w, k, at, copy) && w.pass.now >= at
    ensures MemoryOk(ObserveCondition(w, r, d, ok), k, at, copy)
  {}

  lemma FireKeeps(w: World, b: nat, ok: bool, a: nat, k: Key, at: nat)
    requires TablesSince(w, a, k, at)
    ensures TablesSince(FireAlert(w, b, ok), a, k, at)
  {
    TablesFrame(w, FireAlert(w, b, ok), a, k, at);
  }

  lemma FireKeepsMemory(w: World, b: nat, ok: bool, k: Key, at: nat, copy: Copy)
    requires MemoryOk(w, k, at, copy) && !Opens(w, Fire(b, ok), k)
    ensures MemoryOk(FireAlert(w, b, ok), k, at, copy)
  {
    MemoryFrame(w, FireAlert(w, b, ok), k, at, copy);
  }

  lemma ClearKeeps(w: World, r: nat, d: nat, ok: bool, a: nat, k: Key, at: nat, copy: Copy)
    requires TablesSince(w, a, k, at)
    ensures TablesSince(ClearCondition(w, r, d, ok), a, k, at)
    ensures MemoryOk(w, k, at, copy) ==> MemoryOk(ClearCondition(w, r, d, ok), k, at, copy)
  {
    TablesFrame(w, ClearCondition(w, r, d, ok), a, k, at);
    if MemoryOk(w, k, at, copy) { MemoryFrame(w, ClearCondition(w, r, d, ok), k, at, copy); }
  }

  lemma WritesKeep(w: World, a: nat, k: Key, at: nat)
    requires TablesSince(w, a, k, at)
    ensures TablesSince(RecordAlert(w), a, k, at) && TablesSince(DropState(w), a, k, at)
  {
    TablesFrame(w, RecordAlert(w), a, k, at);
    TablesFrame(w, DropState(w), a, k, at);
  }

  lemma WritesKeepMemory(w: World, k: Key, at: nat, copy: Copy)
    requires MemoryOk(w, k, at, copy)
    ensures MemoryOk(RecordAlert(w), k, at, copy) && MemoryOk(DropState(w), k, at, copy)
  {}

  lemma PassKeeps(w: World, d: nat, a: nat, k: Key, at: nat, copy: Copy)
    requires TimesOk(w) && TablesSince(w, a, k, at)
    ensures TablesSince(StartPass(w), a, k, at) && TablesSince(Clocked(w), a, k, at)
    ensures TablesSince(w.(now := w.now + d), a, k, at)
    ensures MemoryOk(w, k, at, copy) ==>
              && MemoryOk(StartPass(w), k, at, copy) && MemoryOk(Clocked(w), k, at, copy)
              && MemoryOk(w.(now := w.now + d), k, at, copy)
  {
    TablesFrame(w, StartPass(w), a, k, at);
    TablesFrame(w, Clocked(w), a, k, at);
    TablesFrame(w, w.(now := w.now + d), a, k, at);
  }

  lemma SettleKeeps(w: World, write: Write, a: nat, k: Key, at: nat, copy: Copy)
    requires TablesSince(w, a, k, at)
    ensures TablesSince(SettleWrite(w, write), a, k, at)
    ensures MemoryOk(w, k, at, copy) && !Resets(w, Settle(write), k) ==> MemoryOk(SettleWrite(w, write), k, at, copy)
  {
    TablesFrame(w, SettleWrite(w, write), a, k, at);
  }

  lemma DeliveryKeeps(w: World, b: nat, step: Step, a: nat, k: Key, at: nat, copy: Copy)
    requires TablesSince(w, a, k, at)
    ensures TablesSince(AcknowledgeAlert(w, b), a, k, at) && TablesSince(Delivered(w, step), a, k, at)
    ensures MemoryOk(w, k, at, copy)
            ==> MemoryOk(AcknowledgeAlert(w, b), k, at, copy) && MemoryOk(Delivered(w, step), k, at, copy)
  {
    DeliveryKeepsAlerts(w, step);
    TablesFrame(w, AcknowledgeAlert(w, b), a, k, at);
    TablesFrame(w, Delivered(w, step), a, k, at);
    if MemoryOk(w, k, at, copy) {
      MemoryFrame(w, AcknowledgeAlert(w, b), k, at, copy);
      MemoryFrame(w, Delivered(w, step), k, at, copy);
    }
  }

  lemma ResolveKeeps(w: World, b: nat, ok: bool, a: nat, k: Key, at: nat)
    requires TablesSince(w, a, k, at)
    ensures TablesSince(ResolveByHand(w, b, ok), a, k, at)
  {
    TablesFrame(w, ResolveByHand(w, b, ok), a, k, at);
  }

  lemma SilenceKeeps(w: World, d: nat, ok: bool, a: nat, k: Key, at: nat)
    requires TablesSince(w, a, k, at)
    ensures TablesSince(SilenceDevice(w, d, ok), a, k, at)
  {
    TablesFrame(w, SilenceDevice(w, d, ok), a, k, at);
  }

  lemma EditKeeps(w: World, r: nat, rule: Rule, ok: bool, a: nat, k: Key, at: nat)
    requires TablesSince(w, a, k, at) && !Rewrites(Edit(r, rule, ok), k)
    ensures TablesSince(EditRule(w, r, rule, ok), a, k, at)
  {
    TablesFrame(w, EditRule(w, r, rule, ok), a, k, at);
  }

  lemma RemoveKeeps(w: World, r: nat, ok: bool, a: nat, k: Key, at: nat)
    requires TablesSince(w, a, k, at) && !Rewrites(Remove(r, ok), k)
    ensures TablesSince(RemoveRule(w, r, ok), a, k, at)
  {
    TablesFrame(w, RemoveRule(w, r, ok), a, k, at);
  }

  lemma CreateKeeps(w: World, rule: Rule, ok: bool, a: nat, k: Key, at: nat)
    requires TimesOk(w) && TablesSince(w, a, k, at)
    ensures TablesSince(CreateRule(w, rule, ok), a, k, at)
  {
    assert AlertTimes(w, a);
    TablesFrame(w, CreateRule(w, rule, ok), a, k, at);
  }

  lemma EvaluatorKeeps(w: World, act: Action, a: nat, k: Key, at: nat, copy: Copy)
    requires TimesOk(w) && TablesSince(w, a, k, at) && OfEvaluator(act)
    ensures TablesSince(Do(w, act), a, k, at)
    ensures MemoryOk(w, k, at, copy) && !Opens(w, act, k) ==> MemoryOk(Do(w, act), k, at, copy)
  {
    var known := MemoryOk(w, k, at, copy) && !Opens(w, act, k);
    match act
    case BeginPass => PassKeeps(w, 0, a, k, at, copy);
    case ReadClock => PassKeeps(w, 0, a, k, at, copy);
    case Observe(r, d, ok) =>
      ObserveKeeps(w, r, d, ok, a, k, at);
      if known { ObserveKeepsMemory(w, r, d, ok, k, at, copy); }
    case Fire(b, ok) =>
      FireKeeps(w, b, ok, a, k, at);
      if known { FireKeepsMemory(w, b, ok, k, at, copy); }
    case Clear(r, d, ok) => ClearKeeps(w, r, d, ok, a, k, at, copy);
    case _ =>
      WritesKeep(w, a, k, at);
      if known { WritesKeepMemory(w, k, at, copy); }
  }

  lemma OperatorKeeps(w: World, act: Action, a: nat, k: Key, at: nat)
    requires TimesOk(w) && TablesSince(w, a, k, at) && OfOperator(act) && !Rewrites(act, k)
    ensures TablesSince(Do(w, act), a, k, at)
  {
    match act
    case Acknowledge(b) => DeliveryKeeps(w, b, Reclaiming, a, k, at, Copy(Rule(true, 0, 0, [], true), 0, None, 0));
    case Resolve(b, ok) => ResolveKeeps(w, b, ok, a, k, at);
    case Silence(d, ok) => SilenceKeeps(w, d, ok, a, k, at);
    case Edit(r, rule, ok) => EditKeeps(w, r, rule, ok, a, k, at);
    case Remove(r, ok) => RemoveKeeps(w, r, ok, a, k, at);
    case Create(rule, ok) => CreateKeeps(w, rule, ok, a, k, at);
  }

  lemma OperatorKeepsMemory(w: World, act: Action, k: Key, at: nat, copy: Copy)
    requires MemoryOk(w, k, at, copy) && OfOperator(act)
    ensures MemoryOk(Do(w, act), k, at, copy)
  {
    OperatorLeavesMemory(w, act);
    MemoryFrame(w, Do(w, act), k, at, copy);
  }

  lemma OperatorLeavesMemory(w: World, act: Action)
    requires OfOperator(act)
    ensures Do(w, act).mem == w.mem && Do(w, act).pass == w.pass && Do(w, act).eval == w.eval
  {}

  // The tables keep knowing of the alert unless its rule is edited or removed, whatever memory does; and in a calm step
  // that opens no alert of the key memory keeps knowing of it, or stays the copy it was.
  lemma KeepsSince(w: World, act: Action, a: nat, k: Key, at: nat, copy: Copy)
    requires TimesOk(w) && TablesSince(w, a, k, at) && !Rewrites(act, k)
    ensures TablesSince(Do(w, act), a, k, at)
    ensures MemoryOk(w, k, at, copy) && Calm(w, act, k) && !Opens(w, act, k) ==> MemoryOk(Do(w, act), k, at, copy)
  {
    var known := MemoryOk(w, k, at, copy);
    if OfEvaluator(act) {
      EvaluatorKeeps(w, act, a, k, at, copy);
    } else if OfOperator(act) {
      OperatorKeeps(w, act, a, k, at);
      if known { OperatorKeepsMemory(w, act, k, at, copy); }
    } else {
      match act
      case Wait(d) => PassKeeps(w, d, a, k, at, copy);
      case Settle(write) => SettleKeeps(w, write, a, k, at, copy);
      case Installing(i) => InstallKeeps(w, i, a, k, at, copy);
      case Restart => RestartKeeps(w, a, k, at, copy);
      case Deliver(step) => DeliveryKeeps(w, 0, step, a, k, at, copy);
      case LoadRules => QueriesKeep(w, 0, a, k, at); if known { QueriesKeepMemory(w, 0, k, at, copy); }
      case LoadStates(i) => QueriesKeep(w, i, a, k, at); if known { QueriesKeepMemory(w, i, k, at, copy); }
      case LoadCooldowns(i) => QueriesKeep(w, i, a, k, at); if known { QueriesKeepMemory(w, i, k, at, copy); }
    }
  }

  // An alert is known to every table and copy that is read later.
  lemma OpeningStartsSince(w: World, a: nat, ok: bool, k: Key)
    requires TimesOk(w) && Opens(w, Fire(a, ok), k)
    ensures var w', t := FireAlert(w, a, ok), w.eval.attempt;
            TablesSince(w', a, k, t.evaluatedAt) && MemoryOk(w', k, t.evaluatedAt, CopyAt(t))
  {
    var w' := FireAlert(w, a, ok);
    forall i | 0 <= i < |w'.loads| ensures a !in w'.loads[i].known { assert LoadOk(w.store, w.loads[i]); }
  }

  // A copy that knows of the alert.
  function CopyAt(t: Attempt): Copy { Copy(t.rule, t.evaluatedAt, Some(t.evaluatedAt), t.evaluatedAt) }

  lemma KeepsRipe(w: World, act: Action)
    requires AttemptRipe(w) && TimesOk(w)
    ensures AttemptRipe(Do(w, act))
  {}

  // ---------- the spacing ----------

  ghost predicate Spaced(log: seq<Opened>) {
    forall i, j :: 0 <= i < j < |log| ==> log[j].at >= log[i].at + log[j].timer
  }

  ghost predicate AllAfter(log: seq<Opened>, at: nat) {
    forall i :: 0 <= i < |log| ==> log[i].at >= at + log[i].timer
  }

  // The next alert of the key is late enough, if the copy is.
  lemma OpeningIsLate(w: World, a: nat, ok: bool, k: Key, at: nat, copy: Copy)
    requires AttemptRipe(w) && Opens(w, Fire(a, ok), k) && MemoryOk(w, k, at, copy)
    requires Soonest(copy) >= at + Timer(copy.rule)
    ensures OpenedBy(w).at >= at + OpenedBy(w).timer
  {}

  lemma {:induction false} LogSince(w: World, acts: seq<Action>, a: nat, k: Key, at: nat, copy: Copy)
    requires TimesOk(w) && AttemptRipe(w) && TablesSince(w, a, k, at) && MemoryOk(w, k, at, copy)
    requires AllCalm(w, acts, k) && Soonest(copy) >= at + Timer(copy.rule)
    ensures AllAfter(Log(w, acts, k), at) && Spaced(Log(w, acts, k))
    decreases |acts|
  {
    if acts != [] {
      var w' := Do(w, acts[0]);
      KeepsTimes(w, acts[0]);
      KeepsRipe(w, acts[0]);
      if Opens(w, acts[0], k) {
        OpeningIsLate(w, acts[0].alert, acts[0].commits, k, at, copy);
        OpeningStartsSince(w, acts[0].alert, acts[0].commits, k);
        LogSince(w', acts[1..], acts[0].alert, k, OpenedBy(w).at, CopyAt(w.eval.attempt));
        assert Log(w, acts, k) == [OpenedBy(w)] + Log(w', acts[1..], k);
      } else {
        KeepsSince(w, acts[0], a, k, at, copy);
        LogSince(w', acts[1..], a, k, at, copy);
      }
    }
  }

  lemma {:induction false} LogSpaced(w: World, acts: seq<Action>, k: Key)
    requires TimesOk(w) && AttemptRipe(w) && AllCalm(w, acts, k)
    ensures Spaced(Log(w, acts, k))
    decreases |acts|
  {
    if acts != [] {
      var w' := Do(w, acts[0]);
      KeepsTimes(w, acts[0]);
      KeepsRipe(w, acts[0]);
      if Opens(w, acts[0], k) {
        OpeningStartsSince(w, acts[0].alert, acts[0].commits, k);
        LogSince(w', acts[1..], acts[0].alert, k, OpenedBy(w).at, CopyAt(w.eval.attempt));
        assert Log(w, acts, k) == [OpenedBy(w)] + Log(w', acts[1..], k);
      } else {
        LogSpaced(w', acts[1..], k);
      }
    }
  }

  lemma {:induction false} AllKeepsRipe(w: World, acts: seq<Action>)
    requires AttemptRipe(w) && TimesOk(w)
    ensures AttemptRipe(DoAll(w, acts))
    decreases |acts|
  {
    if acts != [] {
      KeepsTimes(w, acts[0]);
      KeepsRipe(w, acts[0]);
      AllKeepsRipe(Do(w, acts[0]), acts[1..]);
    }
  }

  // After any history, until the rule is edited or the device silenced, each alert of a key is at least
  // max(duration, cooldown) of its rule after every earlier one, provided that no reload installs what it read before
  // an alert of the key and no memory write of an earlier edit or silence comes late. This holds across manual and
  // automatic resolution, restarts, edits of other rules, stale rule copies and lost state rows.
  lemma AlertSpacing(history: seq<Action>, acts: seq<Action>, k: Key)
    requires AllCalm(DoAll(Start(), history), acts, k)
    ensures Spaced(Log(DoAll(Start(), history), acts, k))
  {
    StartSafe();
    AllKeepsTimes(Start(), history);
    AllKeepsRipe(Start(), history);
    LogSpaced(DoAll(Start(), history), acts, k);
  }

  lemma {:induction false} Stretch(log: seq<Opened>, gap: nat, i: nat, j: nat)
    requires i <= j < |log|
    requires Spaced(log)
    requires forall x :: 0 <= x < |log| ==> log[x].timer >= gap
    ensures log[j].at >= log[i].at + gap * (j - i)
    decreases j - i
  {
    if i < j {
      Stretch(log, gap, i, j - 1);
      assert log[j].at >= log[j - 1].at + gap;
      assert gap * (j - i) == gap * (j - 1 - i) + gap;
    }
  }

  // So the alerts i to j of any interval, when every timer is at least gap, satisfy gap * (j - i) <= length:
  // the interval holds at most length / gap + 1 of them.
  lemma AlertRate(history: seq<Action>, acts: seq<Action>, k: Key, gap: nat, from: nat, length: nat, i: nat, j: nat)
    requires AllCalm(DoAll(Start(), history), acts, k)
    requires var log := Log(DoAll(Start(), history), acts, k);
             && (forall x :: 0 <= x < |log| ==> log[x].timer >= gap)
             && i <= j < |log| && from <= log[i].at && log[j].at <= from + length
    ensures gap * (j - i) <= length
  {
    AlertSpacing(history, acts, k);
    Stretch(Log(DoAll(Start(), history), acts, k), gap, i, j);
  }

  // ---------- an outdated reload ----------

  // Whether a pass that starts now with that memory opens an alert for the key at once.
  predicate WouldFire(mem: Memory, now: nat, k: Key) {
    && k.rule in mem.rules
    && Ripe(mem.rules[k.rule], now, if k in mem.states then mem.states[k] else Occurrence(now, false),
            Lookup(mem.last, k))
  }

  function NextAlert(i: nat, k: Key, a: nat): seq<Action> {
    [Installing(i), BeginPass, Observe(k.rule, k.device, true), Fire(a, true)]
  }

  // A reload whose copy is ready to fire opens an alert in the very next pass, and no other does.
  lemma NextAlertLog(w: World, i: nat, k: Key, a: nat)
    requires w.eval == Idle && AtStage(w, i, 3) && k.rule in w.store.rules && a !in w.store.core.alerts
    ensures var mem := w.loads[i].mem;
            Log(w, NextAlert(i, k, a), k)
            == if WouldFire(mem, w.now, k) then [Opened(w.now, Timer(mem.rules[k.rule]))] else []
  {
    var w1 := Do(w, Installing(i));
    var w2 := Do(w1, BeginPass);
    var w3 := Do(w2, Observe(k.rule, k.device, true));
    LogOfFour(w, Installing(i), BeginPass, Observe(k.rule, k.device, true), Fire(a, true), k);
    assert w2.mem == w.loads[i].mem && w2.pass == Pass(w.now, w.loads[i].mem.rules) && w2.store == w.store;
    assert w3.eval.Ready? <==> WouldFire(w.loads[i].mem, w.now, k);
    assert Opens(w3, Fire(a, true), k) <==> WouldFire(w.loads[i].mem, w.now, k);
  }

  // Installed right after an alert of the key, a copy spoils the spacing at once if and only if it is ready to fire and
  // its timers reach back that far.
  lemma OutdatedReloadBreaks(w: World, i: nat, k: Key, a: nat, b: nat)
    requires Opens(w, Fire(a, true), k) && AtStage(w, i, 3) && a != b && b !in w.store.core.alerts
    ensures var mem := w.loads[i].mem;
            !Spaced(Log(w, [Fire(a, true), Record] + NextAlert(i, k, b), k))
            <==> WouldFire(mem, w.now, k) && w.now < w.eval.attempt.evaluatedAt + Timer(mem.rules[k.rule])
  {
    var fired := Do(w, Fire(a, true));
    var recorded := Do(fired, Record);
    var rest := NextAlert(i, k, b);
    assert ([Fire(a, true), Record] + rest)[1..] == [Record] + rest && ([Record] + rest)[1..] == rest;
    assert Log(fired, [Record] + rest, k) == Log(recorded, rest, k);
    NextAlertLog(recorded, i, k, b);
    var log := Log(w, [Fire(a, true), Record] + rest, k);
    assert log == [OpenedBy(w)] + Log(recorded, rest, k);
    if WouldFire(w.loads[i].mem, w.now, k) {
      assert log == [OpenedBy(w), Opened(w.now, Timer(w.loads[i].mem.rules[k.rule]))];
      assert Spaced(log) <==> log[1].at >= log[0].at + log[1].timer;
    }
  }

  lemma LogOfFour(w: World, x: Action, y: Action, z: Action, f: Action, k: Key)
    requires !x.Fire? && !y.Fire? && !z.Fire?
    ensures var w3 := Do(Do(Do(w, x), y), z);
            Log(w, [x, y, z, f], k) == if Opens(w3, f, k) then [OpenedBy(w3)] else []
  {
    var w1 := Do(w, x);
    var w2 := Do(w1, y);
    var w3 := Do(w2, z);
    assert [x, y, z, f][1..] == [y, z, f] && [y, z, f][1..] == [z, f] && [z, f][1..] == [f] && [f][1..] == [];
    assert Log(w3, [f], k) == if Opens(w3, f, k) then [OpenedBy(w3)] else [];
    assert Log(w2, [z, f], k) == Log(w3, [f], k);
    assert Log(w1, [y, z, f], k) == Log(w2, [z, f], k);
    assert Log(w, [x, y, z, f], k) == Log(w1, [y, z, f], k);
  }
}
