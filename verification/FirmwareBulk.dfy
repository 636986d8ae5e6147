/**
 UpgradeBulk of internal/firmware/service.go. A result is the id of the device it is about, in the order
 in which the results are appended. Each upgrade appends exactly one, whether it succeeds or fails.
 */
module FirmwareBulk {
  import opened Basics

  type DeviceId = int

  // Parents of the devices in the database. A device that is not there scans as one without a parent.
  type Parents = map<DeviceId, Option<DeviceId>>

  function ParentOf(parents: Parents, id: DeviceId): Option<DeviceId> {
    if id in parents then parents[id] else None
  }

  function Listed(ids: seq<DeviceId>, parents: Parents, parent: Option<DeviceId>): seq<DeviceId> {
    if ids == [] then []
    else
      var last := ids[|ids| - 1];
      Listed(ids[..|ids| - 1], parents, parent) + if ParentOf(parents, last) == parent then [last] else []
  }

  // How often a device is listed: as often as it was requested, if that is its parent; one that is not in the
  // database has none.
  lemma {:induction false} ListedExact(ids: seq<DeviceId>, parents: Parents, parent: Option<DeviceId>, x: DeviceId)
    ensures multiset(Listed(ids, parents, parent))[x]
         == if (if x in parents then parents[x] == parent else parent == None) then multiset(ids)[x] else 0
  {
    ListedCount(ids, parents, parent, x);
  }

  lemma {:induction false} ListedCount(ids: seq<DeviceId>, parents: Parents, parent: Option<DeviceId>, x: DeviceId)
    ensures multiset(Listed(ids, parents, parent))[x] == if ParentOf(parents, x) == parent then multiset(ids)[x] else 0
  {
    if ids != [] {
      var init := ids[..|ids| - 1];
      assert ids == init + [ids[|ids| - 1]];
      ListedCount(init, parents, parent, x);
    }
  }

  lemma ListedNext(ids: seq<DeviceId>, k: nat, parents: Parents, parent: Option<DeviceId>)
    requires k < |ids|
    ensures Listed(ids[..k + 1], parents, parent)
         == Listed(ids[..k], parents, parent) + if ParentOf(parents, ids[k]) == parent then [ids[k]] else []
  {
    assert ids[..k + 1][..k] == ids[..k];
  }

  // Upgrades in parallel: the results arrive in any order.
  method UpgradeAll(devices: seq<DeviceId>) returns (done: seq<DeviceId>)
    ensures multiset(done) == multiset(devices)
  {
    done := [];
    var running := devices;
    while running != []
      invariant multiset(done) + multiset(running) == multiset(devices)
      decreases |running|
    {
      var i :| 0 <= i < |running|;
      assert running == running[..i] + [running[i]] + running[i + 1..];
      done := done + [running[i]];
      running := running[..i] + running[i + 1..];
    }
  }

  predicate IsAp(parents: Parents, id: DeviceId) { ParentOf(parents, id).None? }

  // Whether a station comes after one of its access point.
  predicate Late(results: seq<DeviceId>, parents: Parents, i: nat, j: nat) {
    i <= j < |results| && IsAp(parents, results[i]) && ParentOf(parents, results[j]) == Some(results[i])
  }

  ghost predicate NoneLate(results: seq<DeviceId>, parents: Parents) {
    forall i: nat, j: nat :: !Late(results, parents, i, j)
  }

  predicate FreeParent(x: DeviceId, parents: Parents, results: seq<DeviceId>) {
    var p := ParentOf(parents, x);
    p.Some? && (IsAp(parents, p.value) ==> p.value !in results)
  }

  // Appending a batch of stations is in order if no result so far is about an access point of theirs.
  lemma BatchInOrder(results: seq<DeviceId>, batch: seq<DeviceId>, parents: Parents)
    requires NoneLate(results, parents)
    requires forall x :: x in batch ==> FreeParent(x, parents, results)
    ensures NoneLate(results + batch, parents)
  {
    forall i: nat, j: nat ensures !Late(results + batch, parents, i, j) {
      if i <= j < |results| {
        assert !Late(results, parents, i, j);
      } else if |results| <= j < |results + batch| {
        assert (results + batch)[j] in batch;
        assert |results| <= i <= j ==> (results + batch)[i] in batch;
      }
    }
  }

  lemma ApInOrder(results: seq<DeviceId>, ap: DeviceId, parents: Parents)
    requires NoneLate(results, parents) && IsAp(parents, ap)
    ensures NoneLate(results + [ap], parents)
  {
    forall i: nat, j: nat ensures !Late(results + [ap], parents, i, j) {
      assert !Late(results, parents, i, j);
    }
  }

  // How often x has been upgraded once the access points in done, and their stations, are.
  function Upgraded(ids: seq<DeviceId>, parents: Parents, done: seq<DeviceId>, x: DeviceId): nat {
    if IsAp(parents, x) then multiset(done)[x]
    else if ParentOf(parents, x).value in done then multiset(ids)[x] else 0
  }

  function StasOf(apSTAs: map<DeviceId, seq<DeviceId>>, p: DeviceId): seq<DeviceId> {
    if p in apSTAs then apSTAs[p] else []
  }

  method GroupByParent(ids: seq<DeviceId>, parents: Parents)
    returns (apSTAs: map<DeviceId, seq<DeviceId>>, standaloneAPs: seq<DeviceId>)
    ensures standaloneAPs == Listed(ids, parents, None)
    ensures forall p :: StasOf(apSTAs, p) == Listed(ids, parents, Some(p))
  {
    apSTAs := map[];
    standaloneAPs := [];
    for k := 0 to |ids|
      invariant standaloneAPs == Listed(ids[..k], parents, None)
      invariant forall p :: StasOf(apSTAs, p) == Listed(ids[..k], parents, Some(p))
    {
      var id := ids[k];
      var parent := ParentOf(parents, id);
      ListedNext(ids, k, parents, None);
      forall p ensures Listed(ids[..k + 1], parents, Some(p))
                    == Listed(ids[..k], parents, Some(p)) + if parent == Some(p) then [id] else []
      {
        ListedNext(ids, k, parents, Some(p));
      }
      if parent.Some? {
        var p := parent.value;
        apSTAs := apSTAs[p := StasOf(apSTAs, p) + [id]];
      } else {
        standaloneAPs := standaloneAPs + [id];
      }
    }
    assert ids[..|ids|] == ids;
  }

  // The results once the access points in done, each after its stations, are upgraded.
  ghost predicate Progress(ids: seq<DeviceId>, parents: Parents, done: seq<DeviceId>, results: seq<DeviceId>) {
    && NoneLate(results, parents)
    && forall x :: multiset(results)[x] == Upgraded(ids, parents, done, x)
  }

  function StationsLeft(ids: seq<DeviceId>, parents: Parents, done: seq<DeviceId>, ap: DeviceId): seq<DeviceId> {
    if ap in done then [] else Listed(ids, parents, Some(ap))
  }

  // The groups not upgraded yet.
  ghost predicate GroupsLeft(ids: seq<DeviceId>, parents: Parents, done: seq<DeviceId>,
                             apSTAs: map<DeviceId, seq<DeviceId>>) {
    forall p :: StasOf(apSTAs, p) == StationsLeft(ids, parents, done, p)
  }

  lemma RoundKeepsGroups(ids: seq<DeviceId>, parents: Parents, done: seq<DeviceId>, ap: DeviceId,
                         apSTAs: map<DeviceId, seq<DeviceId>>)
    requires GroupsLeft(ids, parents, done, apSTAs)
    ensures GroupsLeft(ids, parents, done + [ap], apSTAs - {ap})
  {
    forall p ensures StasOf(apSTAs - {ap}, p) == StationsLeft(ids, parents, done + [ap], p) {
      assert StasOf(apSTAs, p) == StationsLeft(ids, parents, done, p);
    }
  }

  lemma NothingDone(ids: seq<DeviceId>, parents: Parents)
    ensures Progress(ids, parents, [], [])
  {}

  lemma RoundCount(ids: seq<DeviceId>, parents: Parents, done: seq<DeviceId>, ap: DeviceId, batch: seq<DeviceId>,
                   x: DeviceId)
    requires IsAp(parents, ap) && multiset(batch) == multiset(StationsLeft(ids, parents, done, ap))
    ensures Upgraded(ids, parents, done + [ap], x) == Upgraded(ids, parents, done, x) + multiset(batch + [ap])[x]
  {
    ListedCount(ids, parents, Some(ap), x);
  }

  lemma RoundKeepsProgress(ids: seq<DeviceId>, parents: Parents, done: seq<DeviceId>, ap: DeviceId,
                           batch: seq<DeviceId>, results: seq<DeviceId>)
    requires Progress(ids, parents, done, results)
    requires IsAp(parents, ap) && multiset(batch) == multiset(StationsLeft(ids, parents, done, ap))
    ensures Progress(ids, parents, done + [ap], results + batch + [ap])
  {
    forall x | x in batch ensures FreeParent(x, parents, results) {
      assert x in multiset(batch);
      ListedCount(ids, parents, Some(ap), x);
      assert multiset(results)[ap] == Upgraded(ids, parents, done, ap);
    }
    BatchInOrder(results, batch, parents);
    ApInOrder(results + batch, ap, parents);
    forall x ensures multiset(results + batch + [ap])[x] == Upgraded(ids, parents, done + [ap], x) {
      RoundCount(ids, parents, done, ap, batch, x);
      assert multiset(results)[x] == Upgraded(ids, parents, done, x);
      assert results + batch + [ap] == results + (batch + [ap]);
    }
  }

  // Every requested device gets exactly as many results as it was requested, and no station comes after
  // its access point.
  ghost predicate Complete(ids: seq<DeviceId>, parents: Parents, results: seq<DeviceId>) {
    && multiset(results) == multiset(ids)
    && forall i, j :: 0 <= i <= j < |results| && results[j] in parents && parents[results[j]] == Some(results[i])
                      ==> results[i] in parents && parents[results[i]].Some?
  }

  function LeftoverCount(ids: seq<DeviceId>, parents: Parents, aps: seq<DeviceId>, x: DeviceId): nat {
    if IsAp(parents, x) || ParentOf(parents, x).value in aps then 0 else multiset(ids)[x]
  }

  lemma LeftoverCompletes(ids: seq<DeviceId>, parents: Parents, batch: seq<DeviceId>, results: seq<DeviceId>)
    requires var aps := Listed(ids, parents, None);
             && Progress(ids, parents, aps, results)
             && forall x :: multiset(batch)[x] == LeftoverCount(ids, parents, aps, x)
    ensures Complete(ids, parents, results + batch)
  {
    var aps := Listed(ids, parents, None);
    forall x ensures multiset(results + batch)[x] == multiset(ids)[x] {
      ListedCount(ids, parents, None, x);
      assert multiset(results)[x] == Upgraded(ids, parents, aps, x);
    }
    forall x | x in batch ensures FreeParent(x, parents, results) {
      assert multiset(batch)[x] > 0;
      var p := ParentOf(parents, x).value;
      assert multiset(results)[p] == Upgraded(ids, parents, aps, p);
    }
    BatchInOrder(results, batch, parents);
    var all := results + batch;
    forall i, j | 0 <= i <= j < |all| && ParentOf(parents, all[j]) == Some(all[i])
      ensures ParentOf(parents, all[i]).Some?
    {
      assert !Late(all, parents, i, j);
    }
  }

  lemma ListedIsAp(ids: seq<DeviceId>, parents: Parents, x: DeviceId)
    requires x in Listed(ids, parents, None)
    ensures IsAp(parents, x)
  {
    assert x in multiset(Listed(ids, parents, None));
    ListedCount(ids, parents, None, x);
  }

  // One access point: its stations in parallel, then the access point.
  method UpgradeOne(ap: DeviceId, apSTAs: map<DeviceId, seq<DeviceId>>, results: seq<DeviceId>,
                    ghost ids: seq<DeviceId>, ghost parents: Parents, ghost done: seq<DeviceId>)
    returns (more: seq<DeviceId>)
    requires IsAp(parents, ap)
    requires Progress(ids, parents, done, results) && GroupsLeft(ids, parents, done, apSTAs)
    ensures Progress(ids, parents, done + [ap], more)
    ensures GroupsLeft(ids, parents, done + [ap], apSTAs - {ap})
  {
    var stas := StasOf(apSTAs, ap);
    var batch := [];
    if |stas| > 0 { batch := UpgradeAll(stas); }
    assert stas == StationsLeft(ids, parents, done, ap);
    RoundKeepsProgress(ids, parents, done, ap, batch, results);
    RoundKeepsGroups(ids, parents, done, ap, apSTAs);
    more := results + batch + [ap];
  }

  method UpgradeBulk(ids: seq<DeviceId>, parents: Parents) returns (results: seq<DeviceId>)
    ensures Complete(ids, parents, results)
  {
    results := [];
    var apSTAs, standaloneAPs := GroupByParent(ids, parents);
    NothingDone(ids, parents);
    var k := 0;
    while k < |standaloneAPs|
      invariant k <= |standaloneAPs|
      invariant Progress(ids, parents, standaloneAPs[..k], results)
      invariant GroupsLeft(ids, parents, standaloneAPs[..k], apSTAs)
    {
      var ap := standaloneAPs[k];
      ListedIsAp(ids, parents, ap);
      assert standaloneAPs[..k + 1] == standaloneAPs[..k] + [ap];
      results := UpgradeOne(ap, apSTAs, results, ids, parents, standaloneAPs[..k]);
      apSTAs := apSTAs - {ap};
      k := k + 1;
    }
    assert standaloneAPs[..k] == standaloneAPs;
    var rest := Leftover(ids, parents, apSTAs, standaloneAPs);
    var batch := [];
    if |rest| > 0 { batch := UpgradeAll(rest); }
    LeftoverCompletes(ids, parents, batch, results);
    results := results + batch;
  }

  // stas are the stations of the unlisted access points whose group is not in left.
  ghost predicate Gathered(ids: seq<DeviceId>, parents: Parents, aps: seq<DeviceId>, left: set<DeviceId>,
                           stas: seq<DeviceId>) {
    forall x :: multiset(stas)[x] == if ParentOf(parents, x).Some? && ParentOf(parents, x).value in left then 0
                                     else LeftoverCount(ids, parents, aps, x)
  }

  lemma GatherStart(ids: seq<DeviceId>, parents: Parents, apSTAs: map<DeviceId, seq<DeviceId>>, aps: seq<DeviceId>)
    requires GroupsLeft(ids, parents, aps, apSTAs)
    ensures Gathered(ids, parents, aps, apSTAs.Keys, [])
  {
    forall x | ParentOf(parents, x).Some? && ParentOf(parents, x).value !in apSTAs
      ensures LeftoverCount(ids, parents, aps, x) == 0
    {
      var p := ParentOf(parents, x).value;
      ListedCount(ids, parents, Some(p), x);
      assert StasOf(apSTAs, p) == StationsLeft(ids, parents, aps, p);
    }
  }

  lemma GatherStep(ids: seq<DeviceId>, parents: Parents, apSTAs: map<DeviceId, seq<DeviceId>>, aps: seq<DeviceId>,
                   left: set<DeviceId>, ap: DeviceId, stas: seq<DeviceId>)
    requires GroupsLeft(ids, parents, aps, apSTAs) && ap in left && ap in apSTAs
    requires Gathered(ids, parents, aps, left, stas)
    ensures Gathered(ids, parents, aps, left - {ap}, if ap in aps then stas else stas + apSTAs[ap])
  {
    assert StasOf(apSTAs, ap) == StationsLeft(ids, parents, aps, ap);
    forall x { ListedCount(ids, parents, Some(ap), x); }
  }

  lemma EmptyOrNot(s: set<DeviceId>)
    ensures s == {} || exists x :: x in s
  {
    if forall x :: x !in s { assert s == {}; }
  }

  // The stations of access points that are not listed, one access point after the other in any order.
  method Leftover(ids: seq<DeviceId>, parents: Parents, apSTAs: map<DeviceId, seq<DeviceId>>, aps: seq<DeviceId>)
    returns (standaloneStas: seq<DeviceId>)
    requires GroupsLeft(ids, parents, aps, apSTAs)
    ensures forall x :: multiset(standaloneStas)[x] == LeftoverCount(ids, parents, aps, x)
  {
    standaloneStas := [];
    var left := apSTAs.Keys;
    GatherStart(ids, parents, apSTAs, aps);
    while left != {}
      invariant left <= apSTAs.Keys
      invariant Gathered(ids, parents, aps, left, standaloneStas)
      decreases |left|
    {
      EmptyOrNot(left);
      var ap :| ap in left;
      GatherStep(ids, parents, apSTAs, aps, left, ap, standaloneStas);
      if ap !in aps { standaloneStas := standaloneStas + apSTAs[ap]; }
      left := left - {ap};
    }
  }
}
