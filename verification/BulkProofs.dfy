/** Semaphore safety, deadlock freedom, termination, fanout gating and conservation of results. */
module BulkProofs {
  import opened Basics
  import opened BulkModel

  // ---------- counting tasks ----------

  function Count(p: (Kind, Pc) -> bool, kinds: seq<Kind>, pcs: seq<Pc>): nat
    requires |kinds| == |pcs|
  {
    if kinds == [] then 0
    else (if p(kinds[0], pcs[0]) then 1 else 0) + Count(p, kinds[1..], pcs[1..])
  }

  function Bit(b: bool): int { if b then 1 else 0 }

  lemma {:induction false} CountUpdate(p: (Kind, Pc) -> bool, kinds: seq<Kind>, pcs: seq<Pc>, t: nat, pc: Pc)
    requires |kinds| == |pcs| && t < |pcs|
    ensures Count(p, kinds, pcs[t := pc]) == Count(p, kinds, pcs) - Bit(p(kinds[t], pcs[t])) + Bit(p(kinds[t], pc))
    decreases t
  {
    if t == 0 {
      assert pcs[t := pc][1..] == pcs[1..];
    } else {
      assert pcs[t := pc][1..] == pcs[1..][t - 1 := pc];
      CountUpdate(p, kinds[1..], pcs[1..], t - 1, pc);
    }
  }

  lemma {:induction false} CountMono(p: (Kind, Pc) -> bool, q: (Kind, Pc) -> bool, kinds: seq<Kind>, pcs: seq<Pc>)
    requires |kinds| == |pcs|
    requires forall t :: 0 <= t < |pcs| ==> p(kinds[t], pcs[t]) ==> q(kinds[t], pcs[t])
    ensures Count(p, kinds, pcs) <= Count(q, kinds, pcs)
    decreases |kinds|
  {
    if kinds != [] {
      forall t | 0 <= t < |pcs[1..]| ensures p(kinds[1..][t], pcs[1..][t]) ==> q(kinds[1..][t], pcs[1..][t]) {
        assert kinds[1..][t] == kinds[t + 1] && pcs[1..][t] == pcs[t + 1];
      }
      CountMono(p, q, kinds[1..], pcs[1..]);
    }
  }

  lemma CountZero(p: (Kind, Pc) -> bool, kinds: seq<Kind>, pcs: seq<Pc>)
    requires |kinds| == |pcs|
    requires forall t :: 0 <= t < |pcs| ==> !p(kinds[t], pcs[t])
    ensures Count(p, kinds, pcs) == 0
  {
    var never := (k: Kind, pc: Pc) => false;
    CountMono(p, never, kinds, pcs);
    NeverCounts(kinds, pcs);
  }

  lemma {:induction false} NeverCounts(kinds: seq<Kind>, pcs: seq<Pc>)
    requires |kinds| == |pcs|
    ensures Count((k: Kind, pc: Pc) => false, kinds, pcs) == 0
    decreases |kinds|
  {
    if kinds != [] { NeverCounts(kinds[1..], pcs[1..]); }
  }

  // ---------- what each counter stands for ----------

  predicate HasResult(pc: Pc) { pc.Listed? || pc.Counted? || pc.Tallied? || pc.Freed? || pc.Ended? }

  predicate HasOutcome(pc: Pc) { pc.Executed? || HasResult(pc) }

  predicate HoldsGlobal(pc: Pc) {
    || pc.WantPace? || pc.Pacing? || pc.Running?
    || ((pc.Executed? || pc.Listed? || pc.Counted? || pc.Tallied?) && pc.o != Refused)
  }

  predicate HoldsLocal(k: Kind, pc: Pc) { !k.Head? && (pc.WantGlobal? || HoldsGlobal(pc) || pc.Freed?) }

  predicate Holds(c: Counter, k: Kind, pc: Pc) {
    match c
    case GlobalSem => HoldsGlobal(pc)
    case JobSem(j) => k.Member? && k.job == j && HoldsLocal(k, pc)
    case ApSem(a) => k.Station? && k.ap == a && HoldsLocal(k, pc)
    case PaceMutex(j) => k.job == j && pc.Pacing?
    case Results(j) => k.job == j && HasResult(pc)
    case Completed(j) => k.job == j && HasResult(pc) && !pc.Listed?
    case _ => (pc.Tallied? || pc.Freed? || pc.Ended?) && TallyOf(k, pc.o) == Some(c)
  }

  function Holding(c: Counter): (Kind, Pc) -> bool { (k: Kind, pc: Pc) => Holds(c, k, pc) }

  // Only the gate refuses, and only access points.
  predicate PcOk(k: Kind, pc: Pc) {
    && (k.Head? ==> !pc.WantLocal? && !pc.WantPace? && !pc.Pacing?)
    && (k.Station? ==> !pc.WantPace? && !pc.Pacing?)
    && (HasOutcome(pc) && pc.o == Refused ==> k.Head? && !pc.Freed?)
  }

  ghost predicate Exact(s: Sys) {
    && Valid(s)
    && (forall c :: Get(s, c) == Count(Holding(c), s.kinds, s.pcs))
    && (forall t :: 0 <= t < |s.pcs| ==> PcOk(s.kinds[t], s.pcs[t]))
    && (forall t :: 0 <= t < |s.pcs| && HasOutcome(s.pcs[t]) && s.pcs[t].o == Unset ==> s.config.maxRetries < 1)
  }

  // The transitions a task can make, each with the counter change that goes with it.
  predicate Legal(k: Kind, pc: Pc, pc': Pc, effect: Option<(Counter, int)>) {
    match pc
    case Idle => effect == None
                 && (pc' == WantLocal || pc' == Gone || (k.Head? && (pc' == WantGlobal || pc' == Executed(Refused))))
    case WantLocal => (pc' == WantGlobal && effect == Effect(k, pc)) || (pc' == Gone && effect == None)
    case WantGlobal => (pc' == (if k.Member? then WantPace else Running) && effect == Effect(k, pc))
                       || (pc' == Gone && effect == QuitEffect(k, pc))
    case Running => pc'.Executed? && pc'.o != Refused && effect == None
    case WantPace => pc' == Pacing && effect == Effect(k, pc)
    case Pacing => pc' == Running && effect == Effect(k, pc)
    case Executed(o) => pc' == Listed(o) && effect == Effect(k, pc)
    case Listed(o) => pc' == Counted(o) && effect == Effect(k, pc)
    case Counted(o) => pc' == Tallied(o) && effect == Effect(k, pc)
    case Tallied(o) => pc' == (if o == Refused then Ended(o) else Freed(o)) && effect == Effect(k, pc)
    case Freed(o) => pc' == Ended(o) && effect == Effect(k, pc)
    case _ => false
  }

  function EffectOf(s: Sys, step: Step): Option<(Counter, int)>
    requires !step.Cancel? && step.task < |s.pcs| && Valid(s)
  {
    var t := step.task;
    if step.Advance? then Effect(s.kinds[t], s.pcs[t])
    else if step.Quit? then QuitEffect(s.kinds[t], s.pcs[t]) else None
  }

  lemma TransitionBalances(k: Kind, pc: Pc, pc': Pc, effect: Option<(Counter, int)>, c: Counter)
    requires PcOk(k, pc) && PcOk(k, pc') && Legal(k, pc, pc', effect)
    ensures Bit(Holds(c, k, pc')) - Bit(Holds(c, k, pc))
            == if effect.Some? && effect.value.0 == c then effect.value.1 else 0
  {
  }

  lemma StepIsLegal(s: Sys, step: Step)
    requires Valid(s) && !step.Cancel? && Next(s, step) != s
    ensures step.task < |s.pcs|
    ensures var s', t := Next(s, step), step.task;
            && s' == Apply(s, t, s'.pcs[t], EffectOf(s, step))
            && Legal(s.kinds[t], s.pcs[t], s'.pcs[t], EffectOf(s, step))
            && (PcOk(s.kinds[t], s.pcs[t]) ==> PcOk(s.kinds[t], s'.pcs[t]))
            && s'.pcs[t] != s.pcs[t]
            && (s'.pcs[t].Gone? ==> s.kinds[t].job in s.canceled)
            && (HasOutcome(s'.pcs[t]) && s'.pcs[t].o == Unset
                ==> s.config.maxRetries < 1 || (HasOutcome(s.pcs[t]) && s.pcs[t].o == Unset))
  {
  }

  lemma ApplyKeepsCounters(s: Sys, t: nat, pc': Pc, effect: Option<(Counter, int)>)
    requires Exact(s) && t < |s.pcs| && PcOk(s.kinds[t], pc') && Legal(s.kinds[t], s.pcs[t], pc', effect)
    ensures var s' := Apply(s, t, pc', effect); forall c :: Get(s', c) == Count(Holding(c), s'.kinds, s'.pcs)
  {
    var s' := Apply(s, t, pc', effect);
    forall c ensures Get(s', c) == Count(Holding(c), s'.kinds, s'.pcs) {
      CountUpdate(Holding(c), s.kinds, s.pcs, t, pc');
      TransitionBalances(s.kinds[t], s.pcs[t], pc', effect, c);
    }
  }

  lemma KeepsExact(s: Sys, step: Step)
    requires Exact(s)
    ensures Exact(Next(s, step))
  {
    var s' := Next(s, step);
    if !step.Cancel? && s' != s {
      StepIsLegal(s, step);
      ApplyKeepsCounters(s, step.task, s'.pcs[step.task], EffectOf(s, step));
    } else {
      assert forall c :: Get(s', c) == Get(s, c);
    }
  }

  lemma InitExact(kinds: seq<Kind>, config: Config)
    ensures Exact(Init(kinds, config))
  {
    var s := Init(kinds, config);
    forall c ensures Get(s, c) == Count(Holding(c), s.kinds, s.pcs) { CountZero(Holding(c), s.kinds, s.pcs); }
  }

  // ---------- capacity ----------

  // How many goroutines a semaphore or mutex lets in.
  function Cap(config: Config, c: Counter): Option<nat> {
    match c
    case GlobalSem => Some(config.global)
    case JobSem(_) => Some(config.perJob)
    case ApSem(_) => Some(config.perAp)
    case PaceMutex(_) => Some(1)
    case _ => None
  }

  ghost predicate Within(s: Sys) {
    forall c :: Cap(s.config, c).Some? ==> Get(s, c) <= Cap(s.config, c).value
  }

  // ---------- cancellation and the gate ----------

  predicate PastGate(pc: Pc) { !pc.Idle? && !pc.Gone? && !(HasOutcome(pc) && pc.o == Refused) }

  predicate Won(j: nat, k: Kind, pc: Pc) { k.Station? && k.job == j && pc == Ended(Success) }

  function Winning(j: nat): (Kind, Pc) -> bool { (k: Kind, pc: Pc) => Won(j, k, pc) }

  ghost predicate GateOk(s: Sys, h: nat)
    requires Valid(s) && h < |s.pcs|
  {
    var j, n := s.kinds[h].job, Stations(s.kinds, s.kinds[h].job);
    !s.pcs[h].Idle? && !s.pcs[h].Gone? ==>
      && (forall t :: 0 <= t < |s.pcs| && s.kinds[t].Station? && s.kinds[t].job == j ==> s.pcs[t].Ended?)
      && (PastGate(s.pcs[h]) <==> n == 0 || 2 * Count(Winning(j), s.kinds, s.pcs) >= n)
  }

  ghost predicate Gated(s: Sys) {
    && Valid(s)
    && (forall t :: 0 <= t < |s.pcs| && s.pcs[t].Gone? ==> s.kinds[t].job in s.canceled)
    && (forall h :: 0 <= h < |s.pcs| && s.kinds[h].Head? ==> s.pcs[h].Gone? || GateOk(s, h))
  }

  // At the gate the job's success counter is the number of its stations that succeeded.
  lemma GateCounts(s: Sys, h: nat)
    requires Exact(s) && WellShaped(s.kinds) && h < |s.pcs| && s.kinds[h].Head? && s.pcs[h].Idle?
    requires forall t :: 0 <= t < |s.pcs| && s.kinds[t].Station? && s.kinds[t].job == s.kinds[h].job ==> s.pcs[t].Ended?
    ensures Get(s, Succeeded(s.kinds[h].job)) == Count(Winning(s.kinds[h].job), s.kinds, s.pcs)
  {
    var j := s.kinds[h].job;
    CountMono(Holding(Succeeded(j)), Winning(j), s.kinds, s.pcs);
    CountMono(Winning(j), Holding(Succeeded(j)), s.kinds, s.pcs);
  }

  // Once the access point has passed or failed its gate, no station of its job moves any more.
  lemma OthersKeepGate(s: Sys, h: nat, t: nat, pc': Pc, effect: Option<(Counter, int)>)
    requires Valid(s) && WellShaped(s.kinds) && h < |s.pcs| && s.kinds[h].Head? && t < |s.pcs| && t != h
    requires GateOk(s, h) && Legal(s.kinds[t], s.pcs[t], pc', effect)
    ensures GateOk(Apply(s, t, pc', effect), h)
  {
    var j := s.kinds[h].job;
    if !s.pcs[h].Idle? && !s.pcs[h].Gone? {
      assert s.kinds[t].job != j;
      CountUpdate(Winning(j), s.kinds, s.pcs, t, pc');
    }
  }

  lemma HeadKeepsGate(s: Sys, h: nat, pc': Pc, effect: Option<(Counter, int)>)
    requires Valid(s) && h < |s.pcs| && s.kinds[h].Head? && !s.pcs[h].Idle?
    requires GateOk(s, h) && Legal(s.kinds[h], s.pcs[h], pc', effect)
    ensures GateOk(Apply(s, h, pc', effect), h)
  {
    CountUpdate(Winning(s.kinds[h].job), s.kinds, s.pcs, h, pc');
  }

  lemma KeepsGate(s: Sys, step: Step, h: nat)
    requires Exact(s) && Gated(s) && WellShaped(s.kinds) && h < |s.pcs| && s.kinds[h].Head?
    ensures Next(s, step).pcs[h].Gone? || GateOk(Next(s, step), h)
  {
    var s' := Next(s, step);
    assert s.pcs[h].Gone? || GateOk(s, h);
    if !step.Cancel? && s' != s {
      StepIsLegal(s, step);
      var t := step.task;
      if t != h {
        if !s.pcs[h].Gone? { OthersKeepGate(s, h, t, s'.pcs[t], EffectOf(s, step)); }
      } else if s.pcs[h].Idle? {
        OpeningGate(s, step, h);
      } else {
        HeadKeepsGate(s, h, s'.pcs[h], EffectOf(s, step));
      }
    }
  }

  lemma OpeningGate(s: Sys, step: Step, h: nat)
    requires Exact(s) && Gated(s) && WellShaped(s.kinds) && h < |s.pcs| && s.kinds[h].Head? && s.pcs[h].Idle?
    requires !step.Cancel? && step.task == h && Next(s, step) != s
    ensures Next(s, step).pcs[h].Gone? || GateOk(Next(s, step), h)
  {
    var s' := Next(s, step);
    var j := s.kinds[h].job;
    if !s'.pcs[h].Gone? {
      assert step.Advance? && StationsFinished(s, j);
      forall t | 0 <= t < |s.pcs| && s.kinds[t].Station? && s.kinds[t].job == j ensures s.pcs[t].Ended? {
        assert Finished(s.pcs[t]);
      }
      GateCounts(s, h);
      CountUpdate(Winning(j), s.kinds, s.pcs, h, s'.pcs[h]);
    }
  }

  lemma KeepsGated(s: Sys, step: Step)
    requires Exact(s) && Gated(s) && WellShaped(s.kinds)
    ensures Gated(Next(s, step))
  {
    if !step.Cancel? && Next(s, step) != s { StepIsLegal(s, step); }
    forall h | 0 <= h < |s.pcs| && s.kinds[h].Head? ensures Next(s, step).pcs[h].Gone? || GateOk(Next(s, step), h) {
      KeepsGate(s, step, h);
    }
  }

  // A semaphore or mutex grows by one at a time, and only where there is room.
  lemma GrowsWithRoom(s: Sys, step: Step, c: Counter)
    requires Valid(s) && Cap(s.config, c).Some?
    ensures Get(Next(s, step), c) <= Get(s, c)
            || Get(Next(s, step), c) == Get(s, c) + 1 <= Cap(s.config, c).value
  {
  }

  lemma KeepsWithin(s: Sys, step: Step)
    requires Valid(s) && Within(s)
    ensures Within(Next(s, step))
  {
    forall c | Cap(s.config, c).Some? { GrowsWithRoom(s, step, c); }
  }

  ghost predicate Inv(s: Sys) { Exact(s) && Within(s) && Gated(s) && WellShaped(s.kinds) }

  lemma {:induction false} RunKeeps(s: Sys, steps: seq<Step>)
    requires Inv(s)
    ensures Inv(Run(s, steps))
    decreases |steps|
  {
    if steps != [] {
      KeepsExact(s, steps[0]);
      KeepsWithin(s, steps[0]);
      KeepsGated(s, steps[0]);
      RunKeeps(Next(s, steps[0]), steps[1..]);
    }
  }

  lemma Reaches(kinds: seq<Kind>, config: Config, steps: seq<Step>)
    requires WellShaped(kinds)
    ensures Inv(Run(Init(kinds, config), steps))
  {
    InitExact(kinds, config);
    RunKeeps(Init(kinds, config), steps);
  }

  // ---------- theorems ----------

  function RunningWhere(p: Kind -> bool): (Kind, Pc) -> bool { (k: Kind, pc: Pc) => pc.Running? && p(k) }

  // In every reachable state no more operations run than each limit allows.
  lemma SemaphoreSafety(kinds: seq<Kind>, config: Config, steps: seq<Step>, j: nat, a: nat)
    requires WellShaped(kinds)
    ensures var s := Run(Init(kinds, config), steps);
            && Count(RunningWhere(k => true), s.kinds, s.pcs) <= config.global
            && Count(RunningWhere(k => k == Member(j)), s.kinds, s.pcs) <= config.perJob
            && Count(RunningWhere((k: Kind) => k.Station? && k.ap == a), s.kinds, s.pcs) <= config.perAp
  {
    var s := Run(Init(kinds, config), steps);
    Reaches(kinds, config, steps);
    CountMono(RunningWhere(k => true), Holding(GlobalSem), s.kinds, s.pcs);
    CountMono(RunningWhere(k => k == Member(j)), Holding(JobSem(j)), s.kinds, s.pcs);
    CountMono(RunningWhere((k: Kind) => k.Station? && k.ap == a), Holding(ApSem(a)), s.kinds, s.pcs);
  }

  predicate Free(pc: Pc) {
    pc.Pacing? || pc.Running? || pc.Executed? || pc.Listed? || pc.Counted? || pc.Tallied? || pc.Freed?
  }

  predicate CanMove(s: Sys, t: nat)
    requires Valid(s)
  {
    t < |s.pcs| && (Target(s, t).Some? || s.pcs[t].Running? || CanQuit(s, t))
  }

  lemma MoveOf(s: Sys, t: nat) returns (step: Step)
    requires Valid(s) && CanMove(s, t)
    ensures !step.Cancel? && Next(s, step).pcs != s.pcs
  {
    var o := if s.config.maxRetries < 1 then Unset else Success;
    step := if s.pcs[t].Running? then Finish(t, o) else if CanQuit(s, t) then Quit(t) else Advance(t);
    assert Next(s, step).pcs[t] != s.pcs[t];
  }

  // Whoever is furthest along is not blocked: nobody holds what it waits for.
  lemma WaiterCanMove(s: Sys, t: nat)
    requires Exact(s) && s.config.perJob >= 1 && s.config.perAp >= 1 && s.config.global >= 1
    requires t < |s.pcs| && !Finished(s.pcs[t]) && !Free(s.pcs[t]) && !s.pcs[t].Idle?
    requires forall u :: 0 <= u < |s.pcs| ==> !Free(s.pcs[u])
    requires s.pcs[t].WantGlobal? || s.pcs[t].WantLocal? ==> forall u :: 0 <= u < |s.pcs| ==> !s.pcs[u].WantPace?
    requires s.pcs[t].WantLocal? ==> forall u :: 0 <= u < |s.pcs| ==> !s.pcs[u].WantGlobal?
    ensures CanMove(s, t)
  {
    assert PcOk(s.kinds[t], s.pcs[t]);
    var c := if s.pcs[t].WantPace? then PaceMutex(s.kinds[t].job)
             else if s.pcs[t].WantGlobal? then GlobalSem else Local(s.kinds[t]);
    CountZero(Holding(c), s.kinds, s.pcs);
  }

  // A task whose next operation can be performed, and the step that performs it.
  lemma SomeoneMoves(s: Sys) returns (step: Step)
    requires Inv(s) && s.config.perJob >= 1 && s.config.perAp >= 1 && s.config.global >= 1
    requires exists t :: 0 <= t < |s.pcs| && !Finished(s.pcs[t])
    ensures !step.Cancel? && Next(s, step).pcs != s.pcs
  {
    if t :| 0 <= t < |s.pcs| && Free(s.pcs[t]) {
      step := MoveOf(s, t);
    } else if t :| 0 <= t < |s.pcs| && s.pcs[t].WantPace? {
      WaiterCanMove(s, t);
      step := MoveOf(s, t);
    } else if t :| 0 <= t < |s.pcs| && s.pcs[t].WantGlobal? {
      WaiterCanMove(s, t);
      step := MoveOf(s, t);
    } else if t :| 0 <= t < |s.pcs| && s.pcs[t].WantLocal? {
      WaiterCanMove(s, t);
      step := MoveOf(s, t);
    } else if t :| 0 <= t < |s.pcs| && s.pcs[t].Idle? && (!s.kinds[t].Head? || s.kinds[t].job in s.canceled) {
      step := MoveOf(s, t);
    } else {
      var t :| 0 <= t < |s.pcs| && !Finished(s.pcs[t]);
      assert StationsFinished(s, s.kinds[t].job);
      step := MoveOf(s, t);
    }
  }

  // Every reachable state with unfinished tasks lets some task move, canceled jobs included.
  lemma DeadlockFree(kinds: seq<Kind>, config: Config, steps: seq<Step>)
    requires WellShaped(kinds) && config.perJob >= 1 && config.perAp >= 1 && config.global >= 1
    ensures var s := Run(Init(kinds, config), steps);
            (exists step: Step :: !step.Cancel? && Next(s, step).pcs != s.pcs)
            <==> exists t :: 0 <= t < |s.pcs| && !Finished(s.pcs[t])
  {
    var s := Run(Init(kinds, config), steps);
    Reaches(kinds, config, steps);
    if exists t :: 0 <= t < |s.pcs| && !Finished(s.pcs[t]) {
      var step := SomeoneMoves(s);
    }
  }

  function Distance(pc: Pc): nat {
    match pc
    case Idle => 11 case WantLocal => 10 case WantGlobal => 9 case WantPace => 8 case Pacing => 7 case Running => 6
    case Executed(_) => 5 case Listed(_) => 4 case Counted(_) => 3 case Tallied(_) => 2 case Freed(_) => 1
    case _ => 0
  }

  function Work(pcs: seq<Pc>): nat { if pcs == [] then 0 else Distance(pcs[0]) + Work(pcs[1..]) }

  lemma {:induction false} WorkUpdate(pcs: seq<Pc>, t: nat, pc: Pc)
    requires t < |pcs|
    ensures Work(pcs[t := pc]) == Work(pcs) - Distance(pcs[t]) + Distance(pc)
    decreases t
  {
    if t == 0 {
      assert pcs[t := pc][1..] == pcs[1..];
    } else {
      assert pcs[t := pc][1..] == pcs[1..][t - 1 := pc];
      WorkUpdate(pcs[1..], t - 1, pc);
    }
  }

  function Moves(s: Sys, steps: seq<Step>): nat
    requires Valid(s)
    decreases |steps|
  {
    if steps == [] then 0
    else Moves(Next(s, steps[0]), steps[1..]) + (if Next(s, steps[0]).pcs != s.pcs then 1 else 0)
  }

  lemma {:induction false} MovesFitWork(s: Sys, steps: seq<Step>)
    requires Valid(s)
    ensures Moves(s, steps) + Work(Run(s, steps).pcs) <= Work(s.pcs)
    decreases |steps|
  {
    if steps != [] {
      var s' := Next(s, steps[0]);
      if s'.pcs != s.pcs { StepIsLegal(s, steps[0]); WorkUpdate(s.pcs, steps[0].task, s'.pcs[steps[0].task]); }
      MovesFitWork(s', steps[1..]);
    }
  }

  lemma {:induction false} IdleWork(pcs: seq<Pc>)
    requires forall t :: 0 <= t < |pcs| ==> pcs[t] == Idle
    ensures Work(pcs) == 11 * |pcs|
  {
    if pcs != [] { IdleWork(pcs[1..]); }
  }

  // No run makes more than eleven moves per task. With DeadlockFree: every run that goes on as long as
  // some task can move finishes all of them.
  lemma Terminates(kinds: seq<Kind>, config: Config, steps: seq<Step>)
    ensures Moves(Init(kinds, config), steps) <= 11 * |kinds|
  {
    MovesFitWork(Init(kinds, config), steps);
    IdleWork(Init(kinds, config).pcs);
  }

  // The access point's operation runs only after every station has ended and at least half of them
  // succeeded, or there are none; it is refused only if fewer did.
  lemma FanoutGate(kinds: seq<Kind>, config: Config, steps: seq<Step>, h: nat)
    requires WellShaped(kinds) && h < |kinds| && kinds[h].Head?
    ensures var s := Run(Init(kinds, config), steps);
            var j, n := kinds[h].job, Stations(kinds, kinds[h].job);
            (s.pcs[h].Running? || HasOutcome(s.pcs[h]) ==>
                  && (forall t :: 0 <= t < |kinds| && kinds[t].Station? && kinds[t].job == j ==> s.pcs[t].Ended?)
                  && (PastGate(s.pcs[h]) <==> n == 0 || 2 * Count(Winning(j), s.kinds, s.pcs) >= n))
  {
    Reaches(kinds, config, steps);
    assert Gated(Run(Init(kinds, config), steps));
  }

  function Of(j: nat): (Kind, Pc) -> bool { (k: Kind, pc: Pc) => k.job == j }

  function NoStatus(j: nat): (Kind, Pc) -> bool { (k: Kind, pc: Pc) => k.job == j && k.Member? && pc == Ended(Unset) }

  lemma {:induction false} CountFour(p: (Kind, Pc) -> bool, a: (Kind, Pc) -> bool, b: (Kind, Pc) -> bool,
                                     c: (Kind, Pc) -> bool, d: (Kind, Pc) -> bool, kinds: seq<Kind>, pcs: seq<Pc>)
    requires |kinds| == |pcs|
    requires forall t :: 0 <= t < |pcs| ==>
               Bit(p(kinds[t], pcs[t])) == Bit(a(kinds[t], pcs[t])) + Bit(b(kinds[t], pcs[t]))
                                           + Bit(c(kinds[t], pcs[t])) + Bit(d(kinds[t], pcs[t]))
    ensures Count(p, kinds, pcs) == Count(a, kinds, pcs) + Count(b, kinds, pcs)
                                    + Count(c, kinds, pcs) + Count(d, kinds, pcs)
    decreases |kinds|
  {
    if kinds != [] {
      var ks, ps := kinds[1..], pcs[1..];
      forall t | 0 <= t < |ps|
        ensures Bit(p(ks[t], ps[t])) == Bit(a(ks[t], ps[t])) + Bit(b(ks[t], ps[t]))
                                        + Bit(c(ks[t], ps[t])) + Bit(d(ks[t], ps[t]))
      {
        assert ks[t] == kinds[t + 1] && ps[t] == pcs[t + 1];
      }
      CountFour(p, a, b, c, d, ks, ps);
    }
  }

  ghost predicate JobFinished(s: Sys, j: nat)
    requires Valid(s)
  {
    forall t :: 0 <= t < |s.pcs| && s.kinds[t].job == j ==> Finished(s.pcs[t])
  }

  lemma FinishedTask(k: Kind, pc: Pc, j: nat)
    requires PcOk(k, pc) && (k.job == j ==> Finished(pc))
    ensures Holds(Results(j), k, pc) <==> Holds(Completed(j), k, pc)
    ensures Bit(Holds(Completed(j), k, pc))
            == Bit(Holds(Succeeded(j), k, pc)) + Bit(Holds(Failed(j), k, pc)) + Bit(Holds(Skipped(j), k, pc))
               + Bit(NoStatus(j)(k, pc))
    ensures k.job == j && !pc.Gone? ==> Holds(Completed(j), k, pc)
  {
  }

  lemma FinishedCounts(s: Sys, j: nat)
    requires Exact(s) && JobFinished(s, j)
    ensures Get(s, Results(j)) == Get(s, Completed(j))
    ensures Get(s, Completed(j)) == Get(s, Succeeded(j)) + Get(s, Failed(j)) + Get(s, Skipped(j))
                                    + Count(NoStatus(j), s.kinds, s.pcs)
  {
    forall t | 0 <= t < |s.pcs|
      ensures Holding(Results(j))(s.kinds[t], s.pcs[t]) <==> Holding(Completed(j))(s.kinds[t], s.pcs[t])
      ensures Bit(Holding(Completed(j))(s.kinds[t], s.pcs[t]))
              == Bit(Holding(Succeeded(j))(s.kinds[t], s.pcs[t])) + Bit(Holding(Failed(j))(s.kinds[t], s.pcs[t]))
                 + Bit(Holding(Skipped(j))(s.kinds[t], s.pcs[t])) + Bit(NoStatus(j)(s.kinds[t], s.pcs[t]))
    {
      FinishedTask(s.kinds[t], s.pcs[t], j);
    }
    CountMono(Holding(Results(j)), Holding(Completed(j)), s.kinds, s.pcs);
    CountMono(Holding(Completed(j)), Holding(Results(j)), s.kinds, s.pcs);
    CountFour(Holding(Completed(j)), Holding(Succeeded(j)), Holding(Failed(j)), Holding(Skipped(j)), NoStatus(j),
              s.kinds, s.pcs);
  }

  lemma AllCompleted(s: Sys, j: nat)
    requires Exact(s) && JobFinished(s, j)
    requires forall t :: 0 <= t < |s.pcs| && s.pcs[t].Gone? ==> s.kinds[t].job != j
    ensures Get(s, Completed(j)) == Count(Of(j), s.kinds, s.pcs)
  {
    forall t | 0 <= t < |s.pcs|
      ensures Holding(Completed(j))(s.kinds[t], s.pcs[t]) <==> Of(j)(s.kinds[t], s.pcs[t])
    {
      FinishedTask(s.kinds[t], s.pcs[t], j);
    }
    CountMono(Holding(Completed(j)), Of(j), s.kinds, s.pcs);
    CountMono(Of(j), Holding(Completed(j)), s.kinds, s.pcs);
  }

  // When the tasks of a job are finished, every result is counted once and under one status, except
  // results without status (no attempts allowed, ordinary jobs only). If the job was not canceled there
  // is one result for each of its devices.
  lemma Conservation(kinds: seq<Kind>, config: Config, steps: seq<Step>, j: nat)
    requires WellShaped(kinds) && JobFinished(Run(Init(kinds, config), steps), j)
    ensures var s := Run(Init(kinds, config), steps);
            && Get(s, Results(j)) == Get(s, Completed(j))
            && Get(s, Completed(j)) == Get(s, Succeeded(j)) + Get(s, Failed(j)) + Get(s, Skipped(j))
                                       + Count(NoStatus(j), s.kinds, s.pcs)
            && (config.maxRetries >= 1 ==> Count(NoStatus(j), s.kinds, s.pcs) == 0)
            && (j !in s.canceled ==> Get(s, Completed(j)) == Count(Of(j), s.kinds, s.pcs))
  {
    var s := Run(Init(kinds, config), steps);
    Reaches(kinds, config, steps);
    FinishedCounts(s, j);
    if config.maxRetries >= 1 { CountZero(NoStatus(j), s.kinds, s.pcs); }
    if j !in s.canceled { AllCompleted(s, j); }
  }
}
