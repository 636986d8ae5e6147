/**
 The per-device circuit breaker, offline verdict and peer snapshot filter of internal/poller/poller_core.go.
 Times and durations are nanoseconds; a duration is a signed 64-bit integer and its arithmetic wraps around.
 */
module PollerReachability {
  import opened Basics

  const MAX_FAILURES := 3
  const OFFLINE_THRESHOLD := 3
  const BASE_BACKOFF := 60_000_000_000
  const MAX_BACKOFF := 900_000_000_000
  const STALE := 1_800_000_000_000

  // ---------- the backoff ----------

  const TWO_63 := 0x8000_0000_0000_0000
  const TWO_64 := 0x1_0000_0000_0000_0000

  function Wrap64(x: int): int { (x + TWO_63) % TWO_64 - TWO_63 }

  // baseBackoff * time.Duration(1 << k)
  function Product(k: nat): int { Wrap64(BASE_BACKOFF * Wrap64(Pow2(k))) }

  function Backoff(failures: nat): int
    requires failures >= MAX_FAILURES
  {
    Min(Product(failures - MAX_FAILURES), MAX_BACKOFF)
  }

  // Doubling from one minute up to fifteen, the backoff the code announces.
  function PlannedBackoff(failures: nat): int
    requires failures >= MAX_FAILURES
  {
    Min(BASE_BACKOFF * Pow2(failures - MAX_FAILURES), MAX_BACKOFF)
  }

  lemma WrapTimes(a: int, b: int)
    ensures Wrap64(a * Wrap64(b)) == Wrap64(a * b)
  {
    var q := (b + TWO_63) / TWO_64;
    assert b == Wrap64(b) + q * TWO_64;
    assert a * b == a * Wrap64(b) + (a * q) * TWO_64 by {
      assert a * b == a * (Wrap64(b) + q * TWO_64);
      assert a * (q * TWO_64) == (a * q) * TWO_64;
    }
    WrapShift(a * Wrap64(b), a * q);
  }

  lemma WrapShift(x: int, m: int)
    ensures Wrap64(x + m * TWO_64) == Wrap64(x)
  {
    var y := x + TWO_63;
    RemainderUnique(y + m * TWO_64, y / TWO_64 + m, y % TWO_64);
  }

  lemma RemainderUnique(z: int, q: int, r: int)
    requires z == q * TWO_64 + r && 0 <= r < TWO_64
    ensures z % TWO_64 == r
  {
    var d := z / TWO_64 - q;
    assert d * TWO_64 == r - z % TWO_64;
  }

  // The wrapped double of a 64-bit value.
  function Twice(p: int): int {
    if 2 * p >= TWO_63 then 2 * p - TWO_64 else if 2 * p < -TWO_63 then 2 * p + TWO_64 else 2 * p
  }

  lemma TwiceWraps(p: int)
    requires -TWO_63 <= p < TWO_63
    ensures Wrap64(2 * p) == Twice(p)
  {
    RemainderUnique(2 * p + TWO_63, if 2 * p >= TWO_63 then 1 else if 2 * p < -TWO_63 then -1 else 0,
                    Twice(p) + TWO_63);
  }

  lemma ProductDoubles(k: nat)
    ensures Product(k + 1) == Twice(Product(k))
  {
    TwiceWraps(Product(k));
    var p := BASE_BACKOFF * Pow2(k);
    WrapTimes(BASE_BACKOFF, Pow2(k));
    WrapTimes(BASE_BACKOFF, Pow2(k + 1));
    WrapTimes(2, p);
    assert BASE_BACKOFF * Pow2(k + 1) == 2 * p;
  }

  lemma {:induction false} PowGrows(k: nat)
    requires k >= 4
    ensures Pow2(k) >= 16
  {
    if k > 4 { PowGrows(k - 1); } else { assert Pow2(4) == 2 * Pow2(3) && Pow2(3) == 2 * Pow2(2); }
  }

  // The product for every shift until nothing is left of it.
  ghost predicate Doubles(product: nat -> int, k: nat) { product(k + 1) == Twice(product(k)) }

  // A sequence of products, each the wrapped double of the one before.
  ghost predicate Doubling(product: nat -> int) {
    product(0) == BASE_BACKOFF && forall k: nat {:trigger Doubles(product, k)} :: Doubles(product, k)
  }

  lemma Products0To8(product: nat -> int)
    requires Doubling(product)
    ensures product(0) == 60_000_000_000 && product(1) == 120_000_000_000
    ensures product(2) == 240_000_000_000 && product(3) == 480_000_000_000
    ensures product(4) == 960_000_000_000 && product(5) == 1_920_000_000_000
    ensures product(6) == 3_840_000_000_000 && product(7) == 7_680_000_000_000
    ensures product(8) == 15_360_000_000_000
  {
    assert Doubles(product, 0) && Doubles(product, 1) && Doubles(product, 2) && Doubles(product, 3);
    assert Doubles(product, 4) && Doubles(product, 5) && Doubles(product, 6) && Doubles(product, 7);
  }

  lemma Products9To17(product: nat -> int)
    requires Doubling(product)
    ensures product(9) == 30_720_000_000_000 && product(10) == 61_440_000_000_000
    ensures product(11) == 122_880_000_000_000 && product(12) == 245_760_000_000_000
    ensures product(13) == 491_520_000_000_000 && product(14) == 983_040_000_000_000
    ensures product(15) == 1_966_080_000_000_000 && product(16) == 3_932_160_000_000_000
    ensures product(17) == 7_864_320_000_000_000
  {
    Products0To8(product);
    assert Doubles(product, 8) && Doubles(product, 9) && Doubles(product, 10) && Doubles(product, 11);
    assert Doubles(product, 12) && Doubles(product, 13) && Doubles(product, 14)
        && Doubles(product, 15) && Doubles(product, 16);
  }

  lemma Products18To26(product: nat -> int)
    requires Doubling(product)
    ensures product(18) == 15_728_640_000_000_000 && product(19) == 31_457_280_000_000_000
    ensures product(20) == 62_914_560_000_000_000 && product(21) == 125_829_120_000_000_000
    ensures product(22) == 251_658_240_000_000_000 && product(23) == 503_316_480_000_000_000
    ensures product(24) == 1_006_632_960_000_000_000 && product(25) == 2_013_265_920_000_000_000
    ensures product(26) == 4_026_531_840_000_000_000
  {
    Products9To17(product);
    assert Doubles(product, 17) && Doubles(product, 18) && Doubles(product, 19) && Doubles(product, 20);
    assert Doubles(product, 21) && Doubles(product, 22) && Doubles(product, 23)
        && Doubles(product, 24) && Doubles(product, 25);
  }

  lemma Products27To35(product: nat -> int)
    requires Doubling(product)
    ensures product(27) == 8_053_063_680_000_000_000 && product(28) == -2_340_616_713_709_551_616
    ensures product(29) == -4_681_233_427_419_103_232 && product(30) == 9_084_277_218_871_345_152
    ensures product(31) == -278_189_635_966_861_312 && product(32) == -556_379_271_933_722_624
    ensures product(33) == -1_112_758_543_867_445_248 && product(34) == -2_225_517_087_734_890_496
    ensures product(35) == -4_451_034_175_469_780_992
  {
    Products18To26(product);
    assert Doubles(product, 26) && Doubles(product, 27) && Doubles(product, 28) && Doubles(product, 29);
    assert Doubles(product, 30) && Doubles(product, 31) && Doubles(product, 32)
        && Doubles(product, 33) && Doubles(product, 34);
  }

  lemma Products36To44(product: nat -> int)
    requires Doubling(product)
    ensures product(36) == -8_902_068_350_939_561_984 && product(37) == 642_607_371_830_427_648
    ensures product(38) == 1_285_214_743_660_855_296 && product(39) == 2_570_429_487_321_710_592
    ensures product(40) == 5_140_858_974_643_421_184 && product(41) == -8_165_026_124_422_709_248
    ensures product(42) == 2_116_691_824_864_133_120 && product(43) == 4_233_383_649_728_266_240
    ensures product(44) == 8_466_767_299_456_532_480
  {
    Products27To35(product);
    assert Doubles(product, 35) && Doubles(product, 36) && Doubles(product, 37) && Doubles(product, 38);
    assert Doubles(product, 39) && Doubles(product, 40) && Doubles(product, 41)
        && Doubles(product, 42) && Doubles(product, 43);
  }

  lemma Products45To53(product: nat -> int)
    requires Doubling(product)
    ensures product(45) == -1_513_209_474_796_486_656 && product(46) == -3_026_418_949_592_973_312
    ensures product(47) == -6_052_837_899_185_946_624 && product(48) == 6_341_068_275_337_658_368
    ensures product(49) == -5_764_607_523_034_234_880 && product(50) == 6_917_529_027_641_081_856
    ensures product(51) == -4_611_686_018_427_387_904 && product(52) == -9_223_372_036_854_775_808
    ensures product(53) == 0
  {
    Products36To44(product);
    assert Doubles(product, 44) && Doubles(product, 45) && Doubles(product, 46) && Doubles(product, 47);
    assert Doubles(product, 48) && Doubles(product, 49) && Doubles(product, 50)
        && Doubles(product, 51) && Doubles(product, 52);
  }

  lemma {:induction false} ProductsVanish(product: nat -> int, k: nat)
    requires Doubling(product) && k >= 53
    ensures product(k) == 0
  {
    if k == 53 { Products45To53(product); } else { ProductsVanish(product, k - 1); assert Doubles(product, k - 1); }
  }

  // The failure counts past thirty for which the wrapped product still is large.
  const LUCKY: set<nat> := {33, 40, 41, 42, 43, 45, 46, 47, 51, 53}

  lemma LargeProducts(product: nat -> int, n: nat)
    requires Doubling(product) && 7 <= n <= 55
    ensures n <= 30 || n in LUCKY ==> product(n - 3) >= MAX_BACKOFF
    ensures 31 <= n && n !in LUCKY ==> product(n - 3) <= 0
  {
    if n <= 11 { Products0To8(product); }
    else if n <= 20 { Products9To17(product); }
    else if n <= 29 { Products18To26(product); }
    else if n <= 38 { Products27To35(product); }
    else if n <= 47 { Products36To44(product); }
    else { Products45To53(product); }
  }

  lemma Planned(n: nat)
    requires n >= MAX_FAILURES
    ensures PlannedBackoff(n) == if n == 3 then BASE_BACKOFF else if n == 4 then 2 * BASE_BACKOFF
                                 else if n == 5 then 4 * BASE_BACKOFF else if n == 6 then 8 * BASE_BACKOFF
                                 else MAX_BACKOFF
  {
    assert Pow2(1) == 2 && Pow2(2) == 4 && Pow2(3) == 2 * Pow2(2);
    if n >= 7 { PowGrows(n - 3); }
  }

  lemma ProductAtZero()
    ensures Product(0) == BASE_BACKOFF
  {
    assert Pow2(0) == 1;
  }

  lemma ProductsDouble()
    ensures Doubling(Product)
  {
    ProductAtZero();
    forall k: nat ensures Doubles(Product, k) { ProductDoubles(k); }
  }

  // The planned backoff holds up to thirty failures in a row. From the thirty-first on the product overflows,
  // and for all but ten counts the device is not backed off at all.
  lemma BackoffExact(n: nat)
    requires n >= MAX_FAILURES
    ensures Backoff(n) == PlannedBackoff(n) <==> n <= 30 || n in LUCKY
    ensures Backoff(n) != PlannedBackoff(n) ==> Backoff(n) <= 0
  {
    Planned(n);
    ProductsDouble();
    if n < 7 {
      Products0To8(Product);
    } else if n <= 55 {
      LargeProducts(Product, n);
    } else {
      ProductsVanish(Product, n - 3);
    }
  }

  // ---------- the breakers of all devices ----------

  // nextRetry is None while it is Go's zero time, which is in the past.
  datatype Circuit = Circuit(failures: nat, unreachable: nat, lastFail: int, nextRetry: Option<int>)

  // One failed poll: whether the device did not answer at all, and when.
  datatype Outcome = Outcome(unreachable: bool, at: int)

  // How many outcomes at the end are unreachable.
  function TrailingRun(outcomes: seq<Outcome>): (n: nat)
    ensures n <= |outcomes|
  {
    if outcomes != [] && outcomes[|outcomes| - 1].unreachable then 1 + TrailingRun(outcomes[..|outcomes| - 1]) else 0
  }

  lemma {:induction false} RunIsSuffix(outcomes: seq<Outcome>, n: nat)
    ensures TrailingRun(outcomes) >= n
            <==> n <= |outcomes| && forall i :: |outcomes| - n <= i < |outcomes| ==> outcomes[i].unreachable
  {
    if n > 0 && outcomes != [] {
      var init := outcomes[..|outcomes| - 1];
      RunIsSuffix(init, n - 1);
      assert forall i :: 0 <= i < |init| ==> init[i] == outcomes[i];
    }
  }

  // One minute after the third failure in a row, doubled up to fifteen minutes; so it goes until the thirtieth.
  lemma BackoffSchedule(n: nat)
    requires 3 <= n <= 30
    ensures Backoff(n) == if n == 3 then 60_000_000_000
                          else if n == 4 then 120_000_000_000
                          else if n == 5 then 240_000_000_000
                          else if n == 6 then 480_000_000_000
                          else 900_000_000_000
  {
    BackoffExact(n);
    assert Pow2(0) == 1 && Pow2(1) == 2 && Pow2(2) == 4 && Pow2(3) == 8;
    if n >= 7 { Pow2AtLeast(n - 3); }
  }

  lemma {:induction false} Pow2AtLeast(m: nat)
    requires m >= 4
    ensures Pow2(m) >= 16
  {
    if m == 4 { assert Pow2(3) == 8; } else { Pow2AtLeast(m - 1); }
  }

  // The breaker state that a history of failures since the last reset amounts to.
  predicate Reflects(c: Circuit, outcomes: seq<Outcome>) {
    && outcomes != []
    && c.failures == |outcomes|
    && c.unreachable == TrailingRun(outcomes)
    && c.lastFail == outcomes[|outcomes| - 1].at
    && c.nextRetry == if |outcomes| < MAX_FAILURES then None
                      else Some(outcomes[|outcomes| - 1].at + Backoff(|outcomes|))
  }

  // The unreachable polls that make a device offline are the last ones of its history, this one included.
  predicate LastThreeUnreachable(outcomes: seq<Outcome>) {
    |outcomes| >= 3 && forall i :: |outcomes| - 3 <= i < |outcomes| ==> outcomes[i].unreachable
  }

  function HistoryOf(history: map<string, seq<Outcome>>, ip: string): seq<Outcome> {
    if ip in history then history[ip] else []
  }

  // No breaker yet, or one that reflects the history.
  predicate Before(c: Circuit, outcomes: seq<Outcome>) {
    if outcomes == [] then c == Circuit(0, 0, 0, None) else Reflects(c, outcomes)
  }

  lemma FailureReflects(c: Circuit, c': Circuit, outcomes: seq<Outcome>, o: Outcome)
    requires Before(c, outcomes)
    requires c'.failures == c.failures + 1 && c'.unreachable == (if o.unreachable then c.unreachable + 1 else 0)
    requires c'.lastFail == o.at
    requires c'.nextRetry == if c'.failures >= MAX_FAILURES then Some(o.at + Backoff(c'.failures)) else c.nextRetry
    ensures Reflects(c', outcomes + [o])
  {
    assert (outcomes + [o])[..|outcomes|] == outcomes;
  }

  class Breakers {
    var circuits: map<string, Circuit>
    // The failures of each device since its last success or cleanup.
    ghost var history: map<string, seq<Outcome>>

    ghost predicate Valid()
      reads this
    {
      && circuits.Keys == history.Keys
      && forall ip :: ip in circuits ==> Reflects(circuits[ip], history[ip])
    }

    constructor ()
      ensures Valid() && circuits == map[] && history == map[]
    {
      circuits, history := map[], map[];
    }

    // Skipping means: three or more failures since the last reset and the backoff after the last not over.
    method ShouldSkip(ip: string, now: int) returns (skip: bool)
      requires Valid()
      ensures var h := HistoryOf(history, ip);
              skip <==> |h| >= MAX_FAILURES && now < h[|h| - 1].at + Backoff(|h|)
    {
      if ip !in circuits { return false; }
      skip := circuits[ip].nextRetry.Some? && now < circuits[ip].nextRetry.value;
    }

    method RecordSuccess(ip: string)
      requires Valid()
      modifies this
      ensures Valid() && circuits == old(circuits) - {ip} && history == old(history) - {ip}
    {
      circuits, history := circuits - {ip}, history - {ip};
    }

    method RecordFailure(ip: string, unreachable: bool, now: int)
      requires Valid()
      modifies this
      ensures Valid()
      ensures history == old(history)[ip := HistoryOf(old(history), ip) + [Outcome(unreachable, now)]]
      ensures circuits.Keys == old(circuits).Keys + {ip}
      ensures forall other :: other in old(circuits) && other != ip ==> circuits[other] == old(circuits)[other]
    {
      var cb := if ip in circuits then circuits[ip] else Circuit(0, 0, 0, None);
      ghost var was := cb;
      cb := cb.(failures := cb.failures + 1, lastFail := now);
      cb := cb.(unreachable := if unreachable then cb.unreachable + 1 else 0);
      if cb.failures >= MAX_FAILURES {
        var backoff := Product(cb.failures - MAX_FAILURES);
        if backoff > MAX_BACKOFF { backoff := MAX_BACKOFF; }
        cb := cb.(nextRetry := Some(now + backoff));
      }
      FailureReflects(was, cb, HistoryOf(history, ip), Outcome(unreachable, now));
      circuits := circuits[ip := cb];
      history := history[ip := HistoryOf(history, ip) + [Outcome(unreachable, now)]];
    }

    // Called before the failure is recorded.
    method GetDeviceStatus(ip: string, unreachable: bool) returns (offline: bool)
      requires Valid()
      ensures forall now :: offline <==> LastThreeUnreachable(HistoryOf(history, ip) + [Outcome(unreachable, now)])
    {
      ghost var before := HistoryOf(history, ip);
      forall now ensures TrailingRun(before + [Outcome(unreachable, now)]) >= 3
                    <==> LastThreeUnreachable(before + [Outcome(unreachable, now)])
      {
        RunIsSuffix(before + [Outcome(unreachable, now)], 3);
      }
      forall now ensures (before + [Outcome(unreachable, now)])[..|before|] == before {}
      if !unreachable { return false; }
      var consecutiveUnreachable := 1;
      if ip in circuits { consecutiveUnreachable := circuits[ip].unreachable + 1; }
      offline := consecutiveUnreachable >= OFFLINE_THRESHOLD;
    }

    // The failure path of one poll: the verdict and the record together.
    method ReportFailure(ip: string, unreachable: bool, now: int) returns (offline: bool)
      requires Valid()
      modifies this
      ensures Valid()
      ensures history == old(history)[ip := HistoryOf(old(history), ip) + [Outcome(unreachable, now)]]
      ensures offline <==> LastThreeUnreachable(history[ip])
    {
      offline := GetDeviceStatus(ip, unreachable);
      RecordFailure(ip, unreachable, now);
    }

    method CleanCircuitBreakers(now: int)
      requires Valid()
      modifies this
      ensures Valid()
      ensures circuits == map ip | ip in old(circuits) && old(circuits)[ip].lastFail >= now - 1_800_000_000_000
                              :: old(circuits)[ip]
      ensures forall ip :: ip in history <==> ip in old(history) && ip in circuits
      ensures forall ip :: ip in history ==> history[ip] == old(history)[ip]
    {
      var todo := circuits.Keys;
      while todo != {}
        invariant todo <= old(circuits).Keys && history == old(history)
        invariant circuits == map ip | ip in old(circuits) && (ip in todo || old(circuits)[ip].lastFail >= now - STALE)
                                :: old(circuits)[ip]
        decreases todo
      {
        var ip :| ip in todo;
        todo := todo - {ip};
        if circuits[ip].lastFail < now - STALE { circuits := circuits - {ip}; }
      }
      history := map ip | ip in history && ip in circuits :: history[ip];
    }
  }

  // ---------- peer snapshots ----------

  datatype Snapshot = Snapshot(ap: int, empty: bool)

  // Whether the latest snapshot of the access point was empty.
  predicate LastEmpty(taken: seq<Snapshot>, ap: int) {
    taken != [] && if taken[|taken| - 1].ap == ap then taken[|taken| - 1].empty else LastEmpty(taken[..|taken| - 1], ap)
  }

  class SnapshotFilter {
    var emptyPolls: map<int, nat>
    ghost var taken: seq<Snapshot>

    ghost predicate Valid()
      reads this
    {
      && (forall ap :: ap in emptyPolls <==> LastEmpty(taken, ap))
      && (forall ap :: ap in emptyPolls ==> 1 <= emptyPolls[ap] <= 2)
    }

    constructor ()
      ensures Valid() && taken == []
    {
      emptyPolls, taken := map[], [];
    }

    // An empty snapshot is accepted exactly when the one before it of the same access point was empty too.
    method AcceptPeerSnapshot(ap: int, peers: nat) returns (accepted: bool)
      requires Valid()
      modifies this
      ensures Valid() && taken == old(taken) + [Snapshot(ap, peers == 0)]
      ensures accepted <==> peers > 0 || LastEmpty(old(taken), ap)
    {
      ghost var before := taken;
      taken := taken + [Snapshot(ap, peers == 0)];
      assert taken[..|taken| - 1] == before;
      if peers > 0 {
        emptyPolls := emptyPolls - {ap};
        return true;
      }
      emptyPolls := emptyPolls[ap := (if ap in emptyPolls then emptyPolls[ap] else 0) + 1];
      if emptyPolls[ap] < 2 { return false; }
      emptyPolls := emptyPolls[ap := 2];
      return true;
    }
  }
}
