/**
 The bulk-operation controller of internal/bulkops/controller.go as interleaved goroutines. Each device
 of a job is one task; one step is one send or receive on a semaphore channel, one mutex operation, one
 append or one atomic add. The configuration is fixed while jobs run.
 */
module BulkModel {
  import opened Basics

  datatype Config = Config(perJob: nat, perAp: nat, global: nat, maxRetries: int)

  // A device of an ordinary job, a station of a fanout job, or the access point of a fanout job.
  datatype Kind = Member(job: nat) | Station(job: nat, ap: nat) | Head(job: nat, ap: nat)

  // What executeWithRetry reports; Refused is the access point skipped by the success-rate gate.
  datatype Outcome = Success | Failure | Canceled | Unset | Refused

  datatype Pc =
    | Idle
    | WantLocal
    | WantGlobal
    | WantPace
    | Pacing
    | Running
    | Executed(o: Outcome)
    | Listed(o: Outcome)
    | Counted(o: Outcome)
    | Tallied(o: Outcome)
    | Freed(o: Outcome)
    | Ended(o: Outcome)
    | Gone

  // Channel occupancies, the rate mutex, and the counters of a job.
  datatype Counter =
    | GlobalSem
    | JobSem(job: nat)
    | ApSem(ap: nat)
    | PaceMutex(job: nat)
    | Results(job: nat)
    | Completed(job: nat)
    | Succeeded(job: nat)
    | Failed(job: nat)
    | Skipped(job: nat)

  datatype Sys = Sys(kinds: seq<Kind>, pcs: seq<Pc>, counters: map<Counter, int>, canceled: set<nat>, config: Config)

  function Get(s: Sys, c: Counter): int { if c in s.counters then s.counters[c] else 0 }

  predicate Finished(pc: Pc) { pc.Ended? || pc.Gone? }

  // The first semaphore a goroutine takes; the access point takes none.
  function Local(k: Kind): Counter { if k.Member? then JobSem(k.job) else ApSem(k.ap) }

  function LocalCap(s: Sys, k: Kind): nat { if k.Member? then s.config.perJob else s.config.perAp }

  // The status counter a result goes to. runFanoutJob counts everything but success as failed.
  function TallyOf(k: Kind, o: Outcome): Option<Counter> {
    match o
    case Success => Some(Succeeded(k.job))
    case Refused => Some(Skipped(k.job))
    case Failure => Some(Failed(k.job))
    case Canceled => Some(if k.Member? then Skipped(k.job) else Failed(k.job))
    case Unset => if k.Member? then None else Some(Failed(k.job))
  }

  predicate StationsFinished(s: Sys, j: nat)
    requires |s.kinds| == |s.pcs|
  {
    forall t :: 0 <= t < |s.kinds| && s.kinds[t].Station? && s.kinds[t].job == j ==> Finished(s.pcs[t])
  }

  function Stations(kinds: seq<Kind>, j: nat): nat {
    if kinds == [] then 0
    else Stations(kinds[..|kinds| - 1], j)
         + (if kinds[|kinds| - 1].Station? && kinds[|kinds| - 1].job == j then 1 else 0)
  }

  // float64(succeeded) / float64(n) < 0.5 && n > 0
  predicate RateTooLow(s: Sys, j: nat) {
    Stations(s.kinds, j) > 0 && 2 * Get(s, Succeeded(j)) < Stations(s.kinds, j)
  }

  predicate Valid(s: Sys) { |s.kinds| == |s.pcs| }

  // Where task t goes next, if its next operation does not block.
  function Target(s: Sys, t: nat): Option<Pc>
    requires Valid(s) && t < |s.pcs|
  {
    var k := s.kinds[t];
    match s.pcs[t]
    case Idle =>
      if k.job in s.canceled then None
      else if !k.Head? then Some(WantLocal)
      else if !StationsFinished(s, k.job) then None
      else Some(if RateTooLow(s, k.job) then Executed(Refused) else WantGlobal)
    case WantLocal => if Get(s, Local(k)) < LocalCap(s, k) then Some(WantGlobal) else None
    case WantGlobal =>
      if Get(s, GlobalSem) < s.config.global then Some(if k.Member? then WantPace else Running) else None
    case WantPace => if Get(s, PaceMutex(k.job)) == 0 then Some(Pacing) else None
    case Pacing => Some(Running)
    case Executed(o) => Some(Listed(o))
    case Listed(o) => Some(Counted(o))
    case Counted(o) => Some(Tallied(o))
    case Tallied(o) => Some(if o == Refused then Ended(o) else Freed(o))
    case Freed(o) => Some(Ended(o))
    case _ => None
  }

  // The one counter the operation at that point changes, and by how much.
  function Effect(k: Kind, pc: Pc): Option<(Counter, int)> {
    match pc
    case WantLocal => Some((Local(k), 1))
    case WantGlobal => Some((GlobalSem, 1))
    case WantPace => Some((PaceMutex(k.job), 1))
    case Pacing => Some((PaceMutex(k.job), -1))
    case Executed(_) => Some((Results(k.job), 1))
    case Listed(_) => Some((Completed(k.job), 1))
    case Counted(o) => if TallyOf(k, o).Some? then Some((TallyOf(k, o).value, 1)) else None
    case Tallied(o) => if o == Refused then None else Some((GlobalSem, -1))
    case Freed(_) => if k.Head? then None else Some((Local(k), -1))
    case _ => None
  }

  // Leaving on cancellation runs the deferred release of whatever is held.
  function QuitEffect(k: Kind, pc: Pc): Option<(Counter, int)> {
    if pc.WantGlobal? && !k.Head? then Some((Local(k), -1)) else None
  }

  function Apply(s: Sys, t: nat, pc: Pc, effect: Option<(Counter, int)>): Sys
    requires t < |s.pcs|
  {
    s.(pcs := s.pcs[t := pc],
       counters := if effect.None? then s.counters
                   else s.counters[effect.value.0 := Get(s, effect.value.0) + effect.value.1])
  }

  // executeWithRetry skips only canceled jobs, and reports no status exactly if it never tries.
  predicate Reports(s: Sys, k: Kind, o: Outcome) {
    o != Refused && (o == Canceled ==> k.job in s.canceled) && (o == Unset <==> s.config.maxRetries < 1)
  }

  predicate CanQuit(s: Sys, t: nat)
    requires Valid(s) && t < |s.pcs|
  {
    s.kinds[t].job in s.canceled && (s.pcs[t].Idle? || s.pcs[t].WantLocal? || s.pcs[t].WantGlobal?)
  }

  datatype Step = Advance(task: nat) | Finish(task: nat, o: Outcome) | Quit(task: nat) | Cancel(job: nat)

  function Next(s: Sys, step: Step): (r: Sys)
    requires Valid(s)
    ensures Valid(r) && r.kinds == s.kinds && r.config == s.config
  {
    match step
    case Advance(t) =>
      if t < |s.pcs| && Target(s, t).Some? then Apply(s, t, Target(s, t).value, Effect(s.kinds[t], s.pcs[t])) else s
    case Finish(t, o) =>
      if t < |s.pcs| && s.pcs[t].Running? && Reports(s, s.kinds[t], o) then Apply(s, t, Executed(o), None) else s
    case Quit(t) =>
      if t < |s.pcs| && CanQuit(s, t) then Apply(s, t, Gone, QuitEffect(s.kinds[t], s.pcs[t])) else s
    case Cancel(j) => s.(canceled := s.canceled + {j})
  }

  function Run(s: Sys, steps: seq<Step>): (r: Sys)
    requires Valid(s)
    ensures Valid(r) && r.kinds == s.kinds && r.config == s.config
    decreases |steps|
  {
    if steps == [] then s else Run(Next(s, steps[0]), steps[1..])
  }

  function Init(kinds: seq<Kind>, config: Config): (r: Sys)
    ensures Valid(r) && r.kinds == kinds && r.config == config
  {
    Sys(kinds, seq(|kinds|, _ => Idle), map[], {}, config)
  }

  // A fanout job has one access point and otherwise stations.
  ghost predicate WellShaped(kinds: seq<Kind>) {
    forall h, t :: 0 <= h < |kinds| && 0 <= t < |kinds| && kinds[h].Head? && kinds[t].job == kinds[h].job && t != h
                   ==> kinds[t].Station?
  }
}
