/**
 When a goroutine of a bulk operation goes on, and what the counters of a finished job say, in terms of where the
 goroutines are and how they ended.
 */
module BulkSteps {
  import opened Basics
  import opened BulkModel
  import opened BulkProofs

  lemma CountSame(p: (Kind, Pc) -> bool, q: (Kind, Pc) -> bool, kinds: seq<Kind>, pcs: seq<Pc>)
    requires |kinds| == |pcs|
    requires forall t :: 0 <= t < |pcs| ==> (p(kinds[t], pcs[t]) <==> q(kinds[t], pcs[t]))
    ensures Count(p, kinds, pcs) == Count(q, kinds, pcs)
  {
    CountMono(p, q, kinds, pcs);
    CountMono(q, p, kinds, pcs);
  }

  // ---------- who goes on ----------

  // Past its first semaphore and not yet through with releasing it.
  predicate InSlot(pc: Pc) { pc != Idle && pc != WantLocal && pc != Gone && !pc.Ended? }

  // Past the global semaphore and not yet through with releasing it; a refused access point never takes it.
  predicate InGlobal(pc: Pc) {
    InSlot(pc) && pc != WantGlobal && !pc.Freed? && !(HasOutcome(pc) && pc.o == Refused)
  }

  function MembersInside(j: nat): (Kind, Pc) -> bool {
    (k: Kind, pc: Pc) => k.Member? && k.job == j && InSlot(pc)
  }

  function StationsInside(ap: nat): (Kind, Pc) -> bool {
    (k: Kind, pc: Pc) => k.Station? && k.ap == ap && InSlot(pc)
  }

  function AllInside(): (Kind, Pc) -> bool { (k: Kind, pc: Pc) => InGlobal(pc) }

  function Starting(j: nat): (Kind, Pc) -> bool { (k: Kind, pc: Pc) => k.job == j && pc == Pacing }

  lemma SlotsTaken(s: Sys, j: nat, ap: nat)
    requires Exact(s)
    ensures Get(s, JobSem(j)) == Count(MembersInside(j), s.kinds, s.pcs)
    ensures Get(s, ApSem(ap)) == Count(StationsInside(ap), s.kinds, s.pcs)
  {
    forall t | 0 <= t < |s.pcs|
      ensures Holding(JobSem(j))(s.kinds[t], s.pcs[t]) <==> MembersInside(j)(s.kinds[t], s.pcs[t])
      ensures Holding(ApSem(ap))(s.kinds[t], s.pcs[t]) <==> StationsInside(ap)(s.kinds[t], s.pcs[t])
    {
      assert PcOk(s.kinds[t], s.pcs[t]);
    }
    CountSame(Holding(JobSem(j)), MembersInside(j), s.kinds, s.pcs);
    CountSame(Holding(ApSem(ap)), StationsInside(ap), s.kinds, s.pcs);
  }

  lemma GlobalTaken(s: Sys, j: nat)
    requires Exact(s)
    ensures Get(s, GlobalSem) == Count(AllInside(), s.kinds, s.pcs)
    ensures Get(s, PaceMutex(j)) == Count(Starting(j), s.kinds, s.pcs)
  {
    CountSame(Holding(GlobalSem), AllInside(), s.kinds, s.pcs);
    CountSame(Holding(PaceMutex(j)), Starting(j), s.kinds, s.pcs);
  }

  // Whether the next operation of the goroutine does not block.
  ghost predicate Free(s: Sys, k: Kind, pc: Pc)
    requires |s.kinds| == |s.pcs|
  {
    match pc
    case Idle => k.job !in s.canceled
                 && (k.Head? ==> forall t :: 0 <= t < |s.kinds| && s.kinds[t].Station? && s.kinds[t].job == k.job
                                             ==> s.pcs[t].Ended? || s.pcs[t].Gone?)
    case WantLocal => if k.Member? then Count(MembersInside(k.job), s.kinds, s.pcs) < s.config.perJob
                      else Count(StationsInside(k.ap), s.kinds, s.pcs) < s.config.perAp
    case WantGlobal => Count(AllInside(), s.kinds, s.pcs) < s.config.global
    case WantPace => Count(Starting(k.job), s.kinds, s.pcs) == 0
    case Running => false  // ends when its operation does
    case Ended(_) => false
    case Gone => false
    case _ => true
  }

  lemma FreeGoes(s: Sys, t: nat)
    requires Exact(s) && t < |s.pcs|
    ensures Next(s, Advance(t)) != s <==> Free(s, s.kinds[t], s.pcs[t])
  {
    var k := s.kinds[t];
    assert PcOk(k, s.pcs[t]);
    if k.Member? { SlotsTaken(s, k.job, 0); } else { SlotsTaken(s, 0, k.ap); }
    GlobalTaken(s, k.job);
    if Next(s, Advance(t)) != s { StepIsLegal(s, Advance(t)); }
  }

  // In every reachable state a goroutine goes on if and only if there is room: fewer goroutines inside than the
  // limits of its job, its access point or the controller allow, and nobody else of its job starting.
  lemma AdvanceExact(kinds: seq<Kind>, config: Config, steps: seq<Step>, t: nat)
    requires WellShaped(kinds) && t < |kinds|
    ensures var s := Run(Init(kinds, config), steps);
            Next(s, Advance(t)) != s <==> Free(s, s.kinds[t], s.pcs[t])
  {
    Reaches(kinds, config, steps);
    FreeGoes(Run(Init(kinds, config), steps), t);
  }

  // A goroutine gives up only where it waits, and only if its job is canceled; canceling does no more than that.
  lemma QuitExact(s: Sys, t: nat, j: nat)
    requires |s.kinds| == |s.pcs| && t < |s.pcs|
    ensures Next(s, Quit(t)).pcs == if s.kinds[t].job in s.canceled && s.pcs[t] in {Idle, WantLocal, WantGlobal}
                                    then s.pcs[t := Gone] else s.pcs
    ensures Next(s, Cancel(j)) == s.(canceled := s.canceled + {j})
  {}

  // An operation that runs may end with any result but that a job never canceled has no canceled one, and that it has
  // no result exactly if no attempt is allowed.
  lemma FinishExact(s: Sys, t: nat, o: Outcome)
    requires |s.kinds| == |s.pcs| && t < |s.pcs|
    ensures Next(s, Finish(t, o))
         == if s.pcs[t] == Running && o != Refused && (o == Canceled ==> s.kinds[t].job in s.canceled)
               && (o == Unset <==> s.config.maxRetries < 1)
            then s.(pcs := s.pcs[t := Executed(o)]) else s
  {}

  // What the gate of a fanout job compares with: the number of its stations.
  lemma {:induction false} StationsExact(kinds: seq<Kind>, j: nat)
    ensures Stations(kinds, j) == |set t | 0 <= t < |kinds| && kinds[t].Station? && kinds[t].job == j|
  {
    var all := set t | 0 <= t < |kinds| && kinds[t].Station? && kinds[t].job == j;
    if kinds == [] {
      assert all == {};
    } else {
      var init, last := kinds[..|kinds| - 1], |kinds| - 1;
      var others := set t | 0 <= t < |init| && init[t].Station? && init[t].job == j;
      StationsExact(init, j);
      assert all == others + if kinds[last].Station? && kinds[last].job == j then {last} else {};
    }
  }

  // ---------- the counters of a finished job ----------

  function EndedWell(j: nat): (Kind, Pc) -> bool { (k: Kind, pc: Pc) => k.job == j && pc == Ended(Success) }

  function EndedBadly(j: nat): (Kind, Pc) -> bool {
    (k: Kind, pc: Pc) =>
      k.job == j && (pc == Ended(Failure) || (!k.Member? && (pc == Ended(Canceled) || pc == Ended(Unset))))
  }

  function LeftOut(j: nat): (Kind, Pc) -> bool {
    (k: Kind, pc: Pc) => k.job == j && ((k.Member? && pc == Ended(Canceled)) || pc == Ended(Refused))
  }

  function WithResult(j: nat): (Kind, Pc) -> bool { (k: Kind, pc: Pc) => k.job == j && pc.Ended? }

  lemma FinishedTallies(s: Sys, j: nat)
    requires Exact(s) && JobFinished(s, j)
    ensures forall t :: 0 <= t < |s.pcs| ==>
              && (Holding(Succeeded(j))(s.kinds[t], s.pcs[t]) <==> EndedWell(j)(s.kinds[t], s.pcs[t]))
              && (Holding(Failed(j))(s.kinds[t], s.pcs[t]) <==> EndedBadly(j)(s.kinds[t], s.pcs[t]))
              && (Holding(Skipped(j))(s.kinds[t], s.pcs[t]) <==> LeftOut(j)(s.kinds[t], s.pcs[t]))
              && (Holding(Results(j))(s.kinds[t], s.pcs[t]) <==> WithResult(j)(s.kinds[t], s.pcs[t]))
  {
    forall t | 0 <= t < |s.pcs|
      ensures Holding(Succeeded(j))(s.kinds[t], s.pcs[t]) <==> EndedWell(j)(s.kinds[t], s.pcs[t])
      ensures Holding(Failed(j))(s.kinds[t], s.pcs[t]) <==> EndedBadly(j)(s.kinds[t], s.pcs[t])
      ensures Holding(Skipped(j))(s.kinds[t], s.pcs[t]) <==> LeftOut(j)(s.kinds[t], s.pcs[t])
      ensures Holding(Results(j))(s.kinds[t], s.pcs[t]) <==> WithResult(j)(s.kinds[t], s.pcs[t])
    {
      TaskTally(s.kinds[t], s.pcs[t], j);
    }
  }

  lemma TaskTally(k: Kind, pc: Pc, j: nat)
    requires PcOk(k, pc) && (k.job == j ==> Finished(pc))
    ensures Holds(Succeeded(j), k, pc) <==> EndedWell(j)(k, pc)
    ensures Holds(Failed(j), k, pc) <==> EndedBadly(j)(k, pc)
    ensures Holds(Skipped(j), k, pc) <==> LeftOut(j)(k, pc)
    ensures Holds(Results(j), k, pc) <==> WithResult(j)(k, pc)
  {}

  // When the goroutines of a job have finished, it reports as many results as ended, as succeeded those that ended in
  // success, as failed those that ended in failure and, in fanout jobs, those canceled or never tried, and as skipped
  // those canceled in ordinary jobs and the access point that was refused.
  lemma TallyExact(kinds: seq<Kind>, config: Config, steps: seq<Step>, j: nat)
    requires WellShaped(kinds) && JobFinished(Run(Init(kinds, config), steps), j)
    ensures var s := Run(Init(kinds, config), steps);
            && Get(s, Succeeded(j)) == Count(EndedWell(j), s.kinds, s.pcs)
            && Get(s, Failed(j)) == Count(EndedBadly(j), s.kinds, s.pcs)
            && Get(s, Skipped(j)) == Count(LeftOut(j), s.kinds, s.pcs)
            && Get(s, Results(j)) == Get(s, Completed(j)) == Count(WithResult(j), s.kinds, s.pcs)
  {
    var s := Run(Init(kinds, config), steps);
    Reaches(kinds, config, steps);
    FinishedTallies(s, j);
    FinishedCounts(s, j);
    CountSame(Holding(Succeeded(j)), EndedWell(j), s.kinds, s.pcs);
    CountSame(Holding(Failed(j)), EndedBadly(j), s.kinds, s.pcs);
    CountSame(Holding(Skipped(j)), LeftOut(j), s.kinds, s.pcs);
    CountSame(Holding(Results(j)), WithResult(j), s.kinds, s.pcs);
  }
}
