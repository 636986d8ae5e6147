/**
 The alert lifecycle of internal/alerting/manager.go: rules, per (rule, device) states and alerts in the database,
 their copies in memory, and the operations that change both. Goroutines interleave between a commit and the memory
 write that follows it, between the two halves of handleTriggered, and between the three queries and the installation
 of a reload. commits says whether an operation's transaction succeeds.
 */
module LifecycleModel {
  import opened Basics
  import opened OutboxModel

  // Durations are nanoseconds. Which conditions a rule watches is an input of each pass.
  datatype Rule = Rule(enabled: bool, duration: nat, cooldown: nat, channels: seq<Channel>, notifyRecovery: bool)
  datatype RuleRow = RuleRow(rule: Rule, updated: nat)
  datatype Key = Key(rule: nat, device: nat)
  datatype Occurrence = Occurrence(first: nat, notified: bool)

  // Rule ids come from the sequence nextRule.
  datatype Store = Store(core: Db, rules: map<nat, RuleRow>, states: map<Key, Occurrence>, nextRule: nat)
  datatype Memory = Memory(rules: map<nat, Rule>, states: map<Key, Occurrence>, last: map<Key, nat>)

  // One Evaluate call: the time it read and its copy of the rules.
  datatype Pass = Pass(now: nat, rules: map<nat, Rule>)

  // A handleTriggered call that passed every gate and is about to open an alert.
  datatype Attempt = Attempt(key: Key, rule: Rule, evaluatedAt: nat, first: nat, last: Option<nat>)

  // Where the evaluator is: about to commit an alert, or between a commit and its memory write.
  datatype Eval = Idle | Ready(attempt: Attempt) | Recording(key: Key, at: nat) | Dropping(key: Key)

  // A memory write that an operator's goroutine owes after its commit.
  datatype Write = Forget(key: Key) | ForgetDevice(device: nat) | ForgetRule(rule: nat)

  // A reload under way: how many of its queries ran (4: installed), and what they returned. known is history: the
  // alerts there were when it read the states.
  datatype Loading = Loading(stage: nat, mem: Memory, known: set<nat>)

  datatype World = World(store: Store, mem: Memory, now: nat, pass: Pass, eval: Eval, owed: multiset<Write>,
                         loads: seq<Loading>, issued: seq<Token>)

  function Core(w: World): State { State(w.store.core, w.now, w.issued) }

  // ---------- closing several alerts in one transaction ----------

  function AllRecoveryKeys(outbox: map<RowKey, Row>, flags: map<nat, Option<bool>>): set<RowKey> {
    set a, c: Channel | a in flags && Recovers(outbox, a, flags[a], c) :: RecoveryKey(a, c)
  }

  function ClosedSet(db: Db, now: nat, flags: map<nat, Option<bool>>): Db {
    Db(map a | a in db.alerts :: if a in flags then ClosedAlert(db.alerts[a], flags[a]) else db.alerts[a],
       map k | k in db.outbox.Keys + AllRecoveryKeys(db.outbox, flags) ::
         if k in AllRecoveryKeys(db.outbox, flags) then UpsertedRow(db.outbox, k, now)
         else if k.alert in flags then CanceledRow(k, db.outbox[k], now, k.alert)
         else db.outbox[k])
  }

  // flags maps each open alert to be closed to its rule's notify_recovery flag.
  ghost function CloseAlerts(db: Db, now: nat, flags: map<nat, Option<bool>>): Result<Db> {
    if exists a :: a in flags && CloseBlocked(db.outbox, a, flags[a]) then Err else Ok(ClosedSet(db, now, flags))
  }

  ghost predicate AllOpen(db: Db, flags: map<nat, Option<bool>>) {
    forall a :: a in flags ==> a in db.alerts && IsOpen(db.alerts[a])
  }

  lemma RecoveriesOfOneMore(db: Db, now: nat, flags: map<nat, Option<bool>>, a: nat, k: RowKey)
    requires a in flags
    ensures k in AllRecoveryKeys(db.outbox, flags)
            <==> k in AllRecoveryKeys(db.outbox, flags - {a}) || k in RecoveryKeys(db.outbox, a, flags[a])
  {
    if k in AllRecoveryKeys(db.outbox, flags) && k.alert != a { assert k.alert in flags - {a}; }
  }

  // What closing the others does to the rows of a: nothing.
  lemma OthersLeaveAlone(db: Db, now: nat, flags: map<nat, Option<bool>>, a: nat)
    requires a in flags
    ensures var rest := ClosedSet(db, now, flags - {a});
            && (forall c :: (TriggerKey(a, c) in rest.outbox <==> TriggerKey(a, c) in db.outbox)
                            && (RecoveryKey(a, c) in rest.outbox <==> RecoveryKey(a, c) in db.outbox))
            && (forall k :: k in rest.outbox && k.alert == a ==> rest.outbox[k] == db.outbox[k])
            && RecoveryKeys(rest.outbox, a, flags[a]) == RecoveryKeys(db.outbox, a, flags[a])
  {
    var others := flags - {a};
    forall k: RowKey | k.alert == a ensures k !in AllRecoveryKeys(db.outbox, others) {}
  }

  lemma RowOfOneMore(db: Db, now: nat, flags: map<nat, Option<bool>>, a: nat, k: RowKey)
    requires a in flags
    ensures var closed := ClosedOutbox(ClosedSet(db, now, flags - {a}).outbox, now, a, flags[a]);
            var all := ClosedSet(db, now, flags).outbox;
            (k in closed <==> k in all) && (k in closed ==> closed[k] == all[k])
  {
    OthersLeaveAlone(db, now, flags, a);
    RecoveriesOfOneMore(db, now, flags, a, k);
    if k.alert == a { assert k !in AllRecoveryKeys(db.outbox, flags - {a}); }
    else { assert k !in RecoveryKeys(db.outbox, a, flags[a]); }
  }

  lemma OutboxOfOneMore(db: Db, now: nat, flags: map<nat, Option<bool>>, a: nat)
    requires a in flags
    ensures ClosedOutbox(ClosedSet(db, now, flags - {a}).outbox, now, a, flags[a]) == ClosedSet(db, now, flags).outbox
  {
    var closed := ClosedOutbox(ClosedSet(db, now, flags - {a}).outbox, now, a, flags[a]);
    var all := ClosedSet(db, now, flags).outbox;
    forall k ensures (k in closed <==> k in all) && (k in closed ==> closed[k] == all[k]) {
      RowOfOneMore(db, now, flags, a, k);
    }
  }

  // Closing a set of alerts at once is closing all but one of them, then that one, in any order.
  lemma CloseOneMore(db: Db, now: nat, flags: map<nat, Option<bool>>, a: nat)
    requires AllOpen(db, flags) && a in flags
    ensures var rest := ClosedSet(db, now, flags - {a});
            && a in rest.alerts && IsOpen(rest.alerts[a])
            && (CloseBlocked(rest.outbox, a, flags[a]) <==> CloseBlocked(db.outbox, a, flags[a]))
            && (!CloseBlocked(db.outbox, a, flags[a])
                ==> CloseAlert(rest, now, a, flags[a]) == Ok(ClosedSet(db, now, flags)))
  {
    var rest, all := ClosedSet(db, now, flags - {a}), ClosedSet(db, now, flags);
    OthersLeaveAlone(db, now, flags, a);
    OutboxOfOneMore(db, now, flags, a);
    assert rest.alerts[a := ClosedAlert(rest.alerts[a], flags[a])] == all.alerts;
  }

  predicate Concerns(alert: Alert, k: Key) { alert.rule == Some(k.rule) && alert.device == k.device }

  function OpenForKey(db: Db, k: Key): set<nat> {
    set a | a in db.alerts && IsOpen(db.alerts[a]) && Concerns(db.alerts[a], k)
  }

  function OpenForRule(db: Db, r: nat): set<nat> {
    set a | a in db.alerts && IsOpen(db.alerts[a]) && db.alerts[a].rule == Some(r)
  }

  function OpenForDevice(db: Db, d: nat): set<nat> {
    set a | a in db.alerts && IsOpen(db.alerts[a]) && db.alerts[a].device == d
  }

  // Alerts that are closed with the same rule's flag.
  function SameFlag(ids: set<nat>, flag: bool): map<nat, Option<bool>> { map a | a in ids :: Some(flag) }

  function RuleFlag(store: Store, a: nat): Option<bool>
    requires a in store.core.alerts
  {
    var r := store.core.alerts[a].rule;
    if r.Some? && r.value in store.rules then Some(store.rules[r.value].rule.notifyRecovery) else None
  }

  function DeviceFlags(store: Store, d: nat): map<nat, Option<bool>> {
    map a | a in OpenForDevice(store.core, d) :: RuleFlag(store, a)
  }

  // ---------- loading memory from the database ----------

  function EnabledRules(store: Store): map<nat, Rule> {
    map r | r in store.rules && store.rules[r].rule.enabled :: store.rules[r].rule
  }

  function EnabledStates(store: Store): map<Key, Occurrence> {
    map k | k in store.states && k.rule in store.rules && store.rules[k.rule].rule.enabled :: store.states[k]
  }

  // Only alerts opened since the rule was last edited count for its cooldown.
  predicate Eligible(store: Store, a: nat, k: Key) {
    && a in store.core.alerts && Concerns(store.core.alerts[a], k)
    && k.rule in store.rules && store.core.alerts[a].triggeredAt >= store.rules[k.rule].updated
  }

  ghost predicate IsLatest(store: Store, k: Key, t: nat) {
    && (exists a :: Eligible(store, a, k) && store.core.alerts[a].triggeredAt == t)
    && (forall a :: Eligible(store, a, k) ==> store.core.alerts[a].triggeredAt <= t)
  }

  function CoolingKeys(store: Store): set<Key> {
    set a | a in store.core.alerts && store.core.alerts[a].rule.Some?
            && Eligible(store, a, Key(store.core.alerts[a].rule.value, store.core.alerts[a].device))
          :: Key(store.core.alerts[a].rule.value, store.core.alerts[a].device)
  }

  // SELECT rule_id, device_id, MAX(triggered_at) ... GROUP BY rule_id, device_id
  ghost function LoadLast(store: Store): (m: map<Key, nat>)
    ensures forall k :: k in m <==> exists a :: Eligible(store, a, k)
    ensures forall k :: k in m ==> IsLatest(store, k, m[k])
  {
    forall k | k in CoolingKeys(store) ensures exists t :: IsLatest(store, k, t) {
      var a :| Eligible(store, a, k);
      LatestExists(store, k, a);
    }
    forall k, a | Eligible(store, a, k) ensures k in CoolingKeys(store) {
      assert k == Key(store.core.alerts[a].rule.value, store.core.alerts[a].device);
    }
    map k | k in CoolingKeys(store) :: var t :| IsLatest(store, k, t); t
  }

  lemma LatestExists(store: Store, k: Key, a: nat)
    requires Eligible(store, a, k)
    ensures exists t :: IsLatest(store, k, t)
  {
    var times := set b | b in store.core.alerts && Eligible(store, b, k) :: store.core.alerts[b].triggeredAt;
    assert store.core.alerts[a].triggeredAt in times;
    var t := Largest(times);
    forall b | Eligible(store, b, k) ensures store.core.alerts[b].triggeredAt <= t {
      assert store.core.alerts[b].triggeredAt in times;
    }
    assert IsLatest(store, k, t);
  }

  ghost function Load(store: Store): Memory {
    Memory(EnabledRules(store), EnabledStates(store), LoadLast(store))
  }

  // ---------- the evaluator ----------

  predicate Ripe(rule: Rule, now: nat, state: Occurrence, last: Option<nat>) {
    && now - state.first >= rule.duration && !state.notified
    && (last.None? || now - last.value >= rule.cooldown)
  }

  function Lookup(m: map<Key, nat>, k: Key): Option<nat> { if k in m then Some(m[k]) else None }

  // What an observation finds in memory.
  function Found(w: World, k: Key): Occurrence {
    if k in w.mem.states then w.mem.states[k] else Occurrence(w.pass.now, false)
  }

  // First half of handleTriggered. The foreign key rejects a state of a rule that is gone.
  function ObserveCondition(w: World, r: nat, d: nat, commits: bool): World {
    var k := Key(r, d);
    var isNew := k !in w.mem.states;
    if r !in w.pass.rules || w.eval != Idle || !commits || (isNew && r !in w.store.rules) then w
    else
      var rule := w.pass.rules[r];
      var state := Found(w, k);
      var last := Lookup(w.mem.last, k);
      w.(mem := w.mem.(states := w.mem.states[k := state]),
         store := if isNew then w.store.(states := w.store.states[k := state]) else w.store,
         eval := if Ripe(rule, w.pass.now, state, last)
                 then Ready(Attempt(k, rule, w.pass.now, state.first, last)) else Idle)
  }

  function Notify(states: map<Key, Occurrence>, k: Key): map<Key, Occurrence> {
    if k in states then states[k := states[k].(notified := true)] else states
  }

  // Whether the alert transaction of the call in flight goes through.
  predicate Fires(w: World, a: nat, commits: bool) {
    w.eval.Ready? && commits && w.eval.attempt.key.rule in w.store.rules && a !in w.store.core.alerts
  }

  function Occurred(w: World, t: Attempt, a: nat): Store {
    w.store.(core := OpenAlert(w.store.core, w.now, a, t.key.rule, t.key.device, t.evaluatedAt, t.rule.channels,
                               Decoded(t.rule.notifyRecovery)),
             states := Notify(w.store.states, t.key))
  }

  // Second half of handleTriggered: the alert, its trigger rows and notified=true in one transaction.
  function FireAlert(w: World, a: nat, commits: bool): World {
    if !w.eval.Ready? then w
    else if !Fires(w, a, commits) then w.(eval := Idle)
    else
      var t := w.eval.attempt;
      w.(store := Occurred(w, t, a), eval := Recording(t.key, t.evaluatedAt))
  }

  // ... and its memory write.
  function RecordAlert(w: World): World {
    if !w.eval.Recording? then w
    else w.(mem := w.mem.(states := Notify(w.mem.states, w.eval.key), last := w.mem.last[w.eval.key := w.eval.at]),
            eval := Idle)
  }

  // handleResolved, its transaction and its memory write.
  ghost function ClearCondition(w: World, r: nat, d: nat, commits: bool): World {
    var k := Key(r, d);
    if r !in w.pass.rules || w.eval != Idle || k !in w.mem.states || !commits then w
    else
      var ids := if w.mem.states[k].notified then OpenForKey(w.store.core, k) else {};
      var closed := CloseAlerts(w.store.core, w.now, SameFlag(ids, w.pass.rules[r].notifyRecovery));
      if closed.Err? then w
      else w.(store := w.store.(core := closed.value, states := w.store.states - {k}), eval := Dropping(k))
  }

  function DropState(w: World): World {
    if !w.eval.Dropping? then w
    else w.(mem := w.mem.(states := w.mem.states - {w.eval.key}), eval := Idle)
  }

  // ---------- operators ----------

  // The cooldown entry survives, so resolving by hand does not bypass the cooldown.
  ghost function ResolveByHand(w: World, a: nat, commits: bool): World {
    if !commits || a !in w.store.core.alerts || !IsOpen(w.store.core.alerts[a]) then w
    else
      var closed := CloseAlert(w.store.core, w.now, a, RuleFlag(w.store, a));
      var alert := w.store.core.alerts[a];
      if closed.Err? then w
      else if alert.rule.None? then w.(store := w.store.(core := closed.value))
      else
        var k := Key(alert.rule.value, alert.device);
        w.(store := w.store.(core := closed.value, states := w.store.states - {k}),
           owed := w.owed + multiset{Forget(k)})
  }

  function StatesOfDevice(m: map<Key, Occurrence>, d: nat): set<Key> { set k | k in m && k.device == d }

  function StatesOfRule(m: map<Key, Occurrence>, r: nat): set<Key> { set k | k in m && k.rule == r }

  ghost function SilenceDevice(w: World, d: nat, commits: bool): World {
    var closed := CloseAlerts(w.store.core, w.now, DeviceFlags(w.store, d));
    if !commits || closed.Err? then w
    else w.(store := w.store.(core := closed.value, states := w.store.states - StatesOfDevice(w.store.states, d)),
            owed := w.owed + multiset{ForgetDevice(d)})
  }

  // resetRuleStateTx: close every open alert of the rule, drop its states.
  ghost function ResetRule(w: World, r: nat): Store
    requires r in w.store.rules
  {
    var flags := SameFlag(OpenForRule(w.store.core, r), w.store.rules[r].rule.notifyRecovery);
    w.store.(core := ClosedSet(w.store.core, w.now, flags),
             states := w.store.states - StatesOfRule(w.store.states, r))
  }

  ghost function EditRule(w: World, r: nat, rule: Rule, commits: bool): World {
    if !commits || r !in w.store.rules then w
    else
      var reset := ResetRule(w, r);
      w.(store := reset.(rules := reset.rules[r := RuleRow(rule, w.now)]), owed := w.owed + multiset{ForgetRule(r)})
  }

  ghost function RemoveRule(w: World, r: nat, commits: bool): World {
    if !commits || r !in w.store.rules then w
    else
      var reset := ResetRule(w, r);
      w.(store := reset.(core := DetachRule(reset.core, r), rules := reset.rules - {r}),
         owed := w.owed + multiset{ForgetRule(r)})
  }

  function CreateRule(w: World, rule: Rule, commits: bool): World {
    if !commits then w
    else w.(store := w.store.(rules := w.store.rules[w.store.nextRule := RuleRow(rule, w.now)],
                              nextRule := w.store.nextRule + 1))
  }

  // Whether the write drops the state of the key, and whether it also drops its cooldown.
  predicate Drops(write: Write, k: Key) {
    match write
    case Forget(key) => k == key
    case ForgetDevice(d) => k.device == d
    case ForgetRule(r) => k.rule == r
  }

  predicate DropsCooldown(write: Write, k: Key) { !write.Forget? && Drops(write, k) }

  function StatesLeft(states: map<Key, Occurrence>, write: Write): map<Key, Occurrence> {
    map k | k in states && !Drops(write, k) :: states[k]
  }

  function CooldownsLeft(last: map<Key, nat>, write: Write): map<Key, nat> {
    map k | k in last && !DropsCooldown(write, k) :: last[k]
  }

  function Written(mem: Memory, write: Write): Memory {
    mem.(states := StatesLeft(mem.states, write), last := CooldownsLeft(mem.last, write))
  }

  function SettleWrite(w: World, write: Write): World {
    if write !in w.owed then w
    else w.(mem := Written(w.mem, write), owed := w.owed - multiset{write})
  }

  // ---------- a reload, query by query ----------

  function ReadRules(w: World): World {
    w.(loads := w.loads + [Loading(1, Memory(EnabledRules(w.store), map[], map[]), {})])
  }

  predicate AtStage(w: World, i: nat, stage: nat) { i < |w.loads| && w.loads[i].stage == stage }

  function ReadStates(w: World, i: nat): World {
    if !AtStage(w, i, 1) then w
    else
      var mem := w.loads[i].mem.(states := EnabledStates(w.store));
      w.(loads := w.loads[i := Loading(2, mem, w.store.core.alerts.Keys)])
  }

  ghost function ReadLast(w: World, i: nat): World {
    if !AtStage(w, i, 2) then w
    else w.(loads := w.loads[i := w.loads[i].(stage := 3, mem := w.loads[i].mem.(last := LoadLast(w.store)))])
  }

  function Install(w: World, i: nat): World {
    if !AtStage(w, i, 3) then w
    else w.(mem := w.loads[i].mem, loads := w.loads[i := w.loads[i].(stage := 4)])
  }

  datatype Action =
    | Wait(elapsed: nat)
    | BeginPass
    | ReadClock
    | Observe(rule: nat, device: nat, commits: bool)
    | Fire(alert: nat, commits: bool)
    | Record
    | Clear(rule: nat, device: nat, commits: bool)
    | Drop
    | Acknowledge(alert: nat)
    | Resolve(alert: nat, commits: bool)
    | Silence(device: nat, commits: bool)
    | Edit(rule: nat, def: Rule, commits: bool)
    | Remove(rule: nat, commits: bool)
    | Create(def: Rule, commits: bool)
    | Settle(write: Write)
    | LoadRules
    | LoadStates(load: nat)
    | LoadCooldowns(load: nat)
    | Installing(load: nat)
    | Restart
    | Deliver(step: Step)

  function StartPass(w: World): World { if w.eval != Idle then w else w.(pass := Pass(w.now, w.mem.rules)) }

  function Clocked(w: World): World { if w.eval != Idle then w else w.(pass := w.pass.(now := w.now)) }

  function AcknowledgeAlert(w: World, a: nat): World {
    w.(store := w.store.(core := OutboxModel.Acknowledge(w.store.core, a)))
  }

  predicate Disabled(store: Store, r: nat) { r in store.rules && !store.rules[r].rule.enabled }

  function OpenOfDisabled(store: Store): set<nat> {
    set a | a in store.core.alerts && IsOpen(store.core.alerts[a])
            && store.core.alerts[a].rule.Some? && Disabled(store, store.core.alerts[a].rule.value)
  }

  // The last statements of ensureRuntimeSchema.
  function Migrated(store: Store): Store {
    store.(core := Retire(store.core, OpenOfDisabled(store)),
           states := map k | k in store.states && !Disabled(store, k.rule) :: store.states[k])
  }

  // A new process: it migrates the tables and loads them; goroutines and their local variables are gone.
  ghost function Restarted(w: World): World {
    w.(store := Migrated(w.store), mem := Load(Migrated(w.store)), pass := Pass(w.pass.now, map[]), eval := Idle,
       owed := multiset{}, loads := [])
  }

  ghost function Delivered(w: World, step: Step): World {
    if step.Claiming? || step.MarkingSent? || step.MarkingFailed? || step.Reclaiming? then
      var s := Next(Core(w), step);
      w.(store := w.store.(core := s.db), issued := s.issued)
    else w
  }

  ghost function Do(w: World, act: Action): World {
    match act
    case Wait(d) => w.(now := w.now + d)
    case BeginPass => StartPass(w)
    case ReadClock => Clocked(w)
    case Observe(r, d, ok) => ObserveCondition(w, r, d, ok)
    case Fire(a, ok) => FireAlert(w, a, ok)
    case Record => RecordAlert(w)
    case Clear(r, d, ok) => ClearCondition(w, r, d, ok)
    case Drop => DropState(w)
    case Acknowledge(a) => AcknowledgeAlert(w, a)
    case Resolve(a, ok) => ResolveByHand(w, a, ok)
    case Silence(d, ok) => SilenceDevice(w, d, ok)
    case Edit(r, rule, ok) => EditRule(w, r, rule, ok)
    case Remove(r, ok) => RemoveRule(w, r, ok)
    case Create(rule, ok) => CreateRule(w, rule, ok)
    case Settle(write) => SettleWrite(w, write)
    case LoadRules => ReadRules(w)
    case LoadStates(i) => ReadStates(w, i)
    case LoadCooldowns(i) => ReadLast(w, i)
    case Installing(i) => Install(w, i)
    case Restart => Restarted(w)
    case Deliver(step) => Delivered(w, step)
  }

  ghost function DoAll(w: World, acts: seq<Action>): World
    decreases |acts|
  {
    if acts == [] then w else DoAll(Do(w, acts[0]), acts[1..])
  }

  ghost function Start(): World {
    World(Store(Db(map[], map[]), map[], map[], 0), Memory(map[], map[], map[]), 0, Pass(0, map[]), Idle, multiset{},
          [], [])
  }
}
