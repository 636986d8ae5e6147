/**
 The device graph of internal/poller: clearing bad parents and adopting the peers of an access point. A row
 is identified by its canonical MAC, which is unique; the database keeps every parent reference pointing at
 a row. Only role and parent of a row are modelled.
 */
module PollerTopology {
  import opened Basics
  import opened Text

  type Mac = string

  // A NULL role or parent MAC is the empty string.
  datatype Device = Device(role: string, parent: Option<Mac>, parentMac: string)

  type Inventory = map<Mac, Device>

  predicate IsAp(d: Device) { Lower(d.role) == "ap" }

  predicate IsSta(d: Device) { Lower(d.role) == "sta" }

  function Orphaned(d: Device): Device { d.(parent := None, parentMac := "") }

  // The rows every parent of which exists.
  ghost predicate Closed(db: Inventory) {
    forall k :: k in db && db[k].parent.Some? ==> db[k].parent.value in db
  }

  ghost predicate KnownRoles(db: Inventory) {
    forall k :: k in db ==> IsAp(db[k]) || IsSta(db[k])
  }

  predicate ParentOk(db: Inventory, k: Mac)
    requires k in db
  {
    db[k].parent.Some? ==> !IsAp(db[k]) && db[k].parent.value in db && IsAp(db[db[k].parent.value])
  }

  // Access points have no parent, and every parent is an access point.
  ghost predicate Forest(db: Inventory) {
    forall k :: k in db ==> ParentOk(db, k)
  }

  lemma ForestIsShallow(db: Inventory, k: Mac)
    requires Forest(db) && k in db && db[k].parent.Some?
    ensures db[k].parent.value != k && db[k].parent.value in db && db[db[k].parent.value].parent.None?
  {
    assert ParentOk(db, k) && ParentOk(db, db[k].parent.value);
  }

  // ---------- breakStaParentLoops ----------

  predicate Invalid(db: Inventory, k: Mac)
    requires k in db
  {
    var d := db[k];
    && d.parent.Some?
    && (d.parent.value == k || IsAp(d) || (IsSta(d) && d.parent.value in db && IsSta(db[d.parent.value])))
  }

  function BreakLoops(db: Inventory): Inventory {
    map k | k in db :: if Invalid(db, k) then Orphaned(db[k]) else db[k]
  }

  // A parent that is neither cleared nor right: one of the two roles is unknown.
  predicate Unresolved(db: Inventory, k: Mac)
    requires k in db
  {
    var d := db[k];
    && d.parent.Some? && d.parent.value != k && d.parent.value in db && !IsAp(d)
    && !IsAp(db[d.parent.value]) && !(IsSta(d) && IsSta(db[d.parent.value]))
  }

  // Whatever the graph, cycles included, the result is a forest if and only if no such parent is there.
  lemma BreakExact(db: Inventory)
    requires Closed(db)
    ensures Forest(BreakLoops(db)) <==> forall k :: k in db ==> !Unresolved(db, k)
  {
    forall k | k in db ensures ParentOk(BreakLoops(db), k) <==> !Unresolved(db, k) { BreakAt(db, k); }
  }

  lemma BreakAt(db: Inventory, k: Mac)
    requires Closed(db) && k in db
    ensures ParentOk(BreakLoops(db), k) <==> !Unresolved(db, k)
  {
    if db[k].parent.Some? { assert db[k].parent.value in db; }
  }

  // A row whose link is missing, right or unresolved stays as it is, and every other row loses its link and nothing
  // else, whatever the other rows are.
  lemma BreakLeaves(db: Inventory, k: Mac)
    requires Closed(db) && k in db
    ensures BreakLoops(db).Keys == db.Keys
    ensures BreakLoops(db)[k] == if ParentOk(db, k) || Unresolved(db, k) then db[k]
                                 else Device(db[k].role, None, "")
  {
    SomeRole(db[k]);
    if db[k].parent.Some? { SomeRole(db[db[k].parent.value]); }
  }

  lemma BreakMakesForest(db: Inventory)
    requires Closed(db) && KnownRoles(db)
    ensures Forest(BreakLoops(db))
  {
    BreakExact(db);
  }

  // Running it again changes nothing, and a forest is left as it is.
  lemma BreakIdempotent(db: Inventory)
    ensures BreakLoops(BreakLoops(db)) == BreakLoops(db)
    ensures Forest(db) ==> BreakLoops(db) == db
  {
    var once := BreakLoops(db);
    forall k | k in db ensures BreakLoops(once)[k] == once[k] { assert !Invalid(once, k); }
    if Forest(db) {
      forall k | k in db ensures !Invalid(db, k) {
        assert ParentOk(db, k);
        SomeRole(db[k]);
        if db[k].parent.Some? && db[k].parent.value in db { SomeRole(db[db[k].parent.value]); }
      }
    }
  }

  lemma SomeRole(d: Device)
    ensures !(IsAp(d) && IsSta(d))
  {}

  // ---------- updateSTAsInDB ----------

  function NormalizeRole(role: string): string {
    var v := Lower(TrimSpace(role));
    if v in ["ap", "accesspoint", "access_point", "access-point"] then "ap"
    else if v in ["sta", "station", "client", "cpe"] then "sta"
    else if HasPrefix(v, "ap") then "ap"
    else if HasPrefix(v, "sta") then "sta"
    else ""
  }

  // One reported peer. fails: a database call about it fails. missed: its row appears only after the lookup.
  // usable: there is an address to store for a new row.
  datatype Peer = Peer(mac: string, fails: bool, missed: bool, usable: bool)

  function Adopted(d: Device, ap: Mac): Device { Device("sta", Some(ap), ap) }

  // The row of one peer afterwards. Referring to an access point that is gone fails.
  function AdoptPeer(db: Inventory, ap: Mac, peer: Peer): Inventory {
    var k := Lower(peer.mac);
    if peer.mac == "" || peer.fails then db
    else if k in db && !peer.missed then
      if NormalizeRole(db[k].role) == "ap" then db[k := Orphaned(db[k])]
      else if ap in db then db[k := Adopted(db[k], ap)] else db
    else if !peer.usable then db
    else if k in db && db[k].role == "ap" then db[k := Orphaned(db[k])]
    else if ap !in db then db
    else if k in db then db[k := Adopted(db[k], ap)]
    else db[k := Device("sta", Some(ap), ap)]
  }

  function AdoptPeers(db: Inventory, ap: Mac, peers: seq<Peer>): Inventory {
    if peers == [] then db else AdoptPeer(AdoptPeers(db, ap, peers[..|peers| - 1]), ap, peers[|peers| - 1])
  }

  // The two texts the program writes, and the NULL of a device whose role is not known yet.
  ghost predicate Tidy(db: Inventory) {
    forall k :: k in db ==> db[k].role == "ap" || db[k].role == "sta" || db[k].role == ""
  }

  lemma TextForms()
    ensures Lower("ap") == "ap" && Lower("sta") == "sta"
    ensures NormalizeRole("ap") == "ap" && NormalizeRole("sta") == "sta" && NormalizeRole("") == ""
  {
    assert Lower("ap") == "ap";
    assert Lower("sta") == "sta";
    assert NormalizeRole("") == "";
  }

  lemma TidyRole(d: Device)
    requires d.role == "ap" || d.role == "sta" || d.role == ""
    ensures IsAp(d) <==> d.role == "ap"
    ensures IsSta(d) <==> d.role == "sta"
    ensures NormalizeRole(d.role) == "ap" <==> d.role == "ap"
  {
    TextForms();
  }

  // Whether the peer ends up as a child of ap.
  predicate Adoptable(db: Inventory, ap: Mac, peer: Peer) {
    var k := Lower(peer.mac);
    && peer.mac != "" && !peer.fails && ap in db
    && (k in db ==> db[k].role != "ap") && ((k in db && !peer.missed) || peer.usable)
  }

  // In tidy inventories a report changes the row of its peer and no other, and only one of these ways.
  lemma AdoptStep(db: Inventory, ap: Mac, peer: Peer)
    requires Tidy(db)
    ensures var k, after := Lower(peer.mac), AdoptPeer(db, ap, peer);
            && Tidy(after)
            && (Adoptable(db, ap, peer) ==> after == db[k := Device("sta", Some(ap), ap)])
            && (!Adoptable(db, ap, peer) ==> after == db
                                             || (k in db && db[k].role == "ap" && after == db[k := Orphaned(db[k])]))
  {
    var k := Lower(peer.mac);
    if k in db { TidyRole(db[k]); }
  }

  // An access point is never demoted nor given a parent, reported by itself or by any other.
  lemma {:induction false} ApsKept(db: Inventory, ap: Mac, peers: seq<Peer>, k: Mac)
    requires Tidy(db) && k in db && db[k].role == "ap"
    ensures var after := AdoptPeers(db, ap, peers);
            Tidy(after) && k in after && after[k].role == "ap" && (after[k] == db[k] || after[k].parent.None?)
  {
    if peers != [] {
      var init := peers[..|peers| - 1];
      ApsKept(db, ap, init, k);
      AdoptStep(AdoptPeers(db, ap, init), ap, peers[|peers| - 1]);
    }
  }

  // A forest but for children of ap, whose role may be anything.
  ghost predicate ForestUnder(db: Inventory, ap: Mac) {
    forall k :: k in db && db[k].parent.Some?
      ==> db[k].role != "ap" && db[k].parent.value in db
          && (db[k].parent.value == ap || db[db[k].parent.value].role == "ap")
  }

  lemma ForestIsUnder(db: Inventory, ap: Mac)
    requires Tidy(db)
    ensures Forest(db) ==> ForestUnder(db, ap)
    ensures (ap in db ==> db[ap].role == "ap") && ForestUnder(db, ap) ==> Forest(db)
  {
    forall k | k in db ensures IsAp(db[k]) <==> db[k].role == "ap" { TidyRole(db[k]); }
    if Forest(db) {
      forall k | k in db && db[k].parent.Some? ensures db[k].role != "ap" && db[k].parent.value in db
                                                    && db[db[k].parent.value].role == "ap"
      {
        assert ParentOk(db, k);
      }
    }
  }

  lemma {:induction false} AdoptUnder(db: Inventory, ap: Mac, peers: seq<Peer>)
    requires Tidy(db) && ForestUnder(db, ap)
    ensures var after := AdoptPeers(db, ap, peers); Tidy(after) && ForestUnder(after, ap)
    ensures var after := AdoptPeers(db, ap, peers); ap in after <==> ap in db
    ensures var after := AdoptPeers(db, ap, peers); ap in db ==> (after[ap].role == "ap" <==> db[ap].role == "ap")
  {
    if peers != [] {
      var before := AdoptPeers(db, ap, peers[..|peers| - 1]);
      AdoptUnder(db, ap, peers[..|peers| - 1]);
      AdoptStep(before, ap, peers[|peers| - 1]);
    }
  }

  lemma {:induction false} NoneAdopted(db: Inventory, ap: Mac, peers: seq<Peer>)
    requires Tidy(db) && Forest(db) && forall i :: 0 <= i < |peers| ==> !Adoptable(db, ap, peers[i])
    ensures AdoptPeers(db, ap, peers).Keys == db.Keys
    ensures forall k :: k in db ==> AdoptPeers(db, ap, peers)[k] in {db[k], Orphaned(db[k])}
  {
    if peers != [] {
      var last, before := peers[|peers| - 1], AdoptPeers(db, ap, peers[..|peers| - 1]);
      NoneAdopted(db, ap, peers[..|peers| - 1]);
      assert Tidy(before);
      assert !Adoptable(before, ap, last);
      AdoptStep(before, ap, last);
    }
  }

  lemma {:induction false} RolesStay(db: Inventory, ap: Mac, peers: seq<Peer>)
    requires Tidy(db)
    ensures var after := AdoptPeers(db, ap, peers);
            && Tidy(after) && db.Keys <= after.Keys
            && forall k :: k in after ==> (after[k].role == "ap" <==> k in db && db[k].role == "ap")
  {
    if peers != [] {
      RolesStay(db, ap, peers[..|peers| - 1]);
      AdoptStep(AdoptPeers(db, ap, peers[..|peers| - 1]), ap, peers[|peers| - 1]);
    }
  }

  lemma {:induction false} SomeAdopted(db: Inventory, ap: Mac, peers: seq<Peer>, i: nat)
    requires Tidy(db) && i < |peers| && Adoptable(db, ap, peers[i])
    ensures var after, k := AdoptPeers(db, ap, peers), Lower(peers[i].mac);
            Tidy(after) && k in after && after[k] == Device("sta", Some(ap), ap)
  {
    var init, last := peers[..|peers| - 1], peers[|peers| - 1];
    RolesStay(db, ap, init);
    AdoptStep(AdoptPeers(db, ap, init), ap, last);
    if i < |init| {
      SomeAdopted(db, ap, init, i);
    } else {
      assert Adoptable(AdoptPeers(db, ap, init), ap, last);
    }
  }

  // A report keeps the forest if and only if it is about an access point or adopts nobody.
  lemma AdoptExact(db: Inventory, ap: Mac, peers: seq<Peer>)
    requires Tidy(db) && Forest(db)
    ensures Forest(AdoptPeers(db, ap, peers))
            <==> (ap in db && db[ap].role == "ap") || forall i :: 0 <= i < |peers| ==> !Adoptable(db, ap, peers[i])
  {
    var after := AdoptPeers(db, ap, peers);
    RolesStay(db, ap, peers);
    if ap in db && db[ap].role == "ap" {
      ForestIsUnder(db, ap);
      AdoptUnder(db, ap, peers);
      ForestIsUnder(after, ap);
    } else if i :| 0 <= i < |peers| && Adoptable(db, ap, peers[i]) {
      SomeAdopted(db, ap, peers, i);
      TidyRole(after[ap]);
      assert !ParentOk(after, Lower(peers[i].mac));
    } else {
      NoneAdopted(db, ap, peers);
      forall k | k in after ensures ParentOk(after, k) { StaysOk(db, after, k); }
    }
  }

  lemma StaysOk(db: Inventory, after: Inventory, k: Mac)
    requires Forest(db) && after.Keys == db.Keys && k in db
    requires forall j :: j in db ==> after[j] in {db[j], Orphaned(db[j])}
    ensures ParentOk(after, k)
  {
    assert ParentOk(db, k);
  }

  // ---------- what happens to the table ----------

  predicate ApRow(db: Inventory, ap: Mac) { ap in db && db[ap].role == "ap" }

  function Promoted(db: Inventory, ap: Mac): Inventory { if ap in db then db[ap := Device("ap", None, "")] else db }

  function WithoutParent(db: Inventory, ap: Mac): Inventory { if ap in db then db[ap := Orphaned(db[ap])] else db }

  // A Wave poll that finds an access point: its parent goes, its peers are adopted, and its role is corrected if it
  // differs from the one the row had when the poll was queued.
  function PolledWaveAp(db: Inventory, ap: Mac, peers: seq<Peer>, corrected: bool): Inventory {
    var adopted := AdoptPeers(WithoutParent(db, ap), ap, peers);
    if corrected then Promoted(adopted, ap) else adopted
  }

  // An airMAX poll corrects the row only if the device came online or its name or platform changed.
  function PolledAirMaxAp(db: Inventory, ap: Mac, peers: seq<Peer>, corrected: bool): Inventory {
    var adopted := AdoptPeers(db, ap, peers);
    if corrected then Promoted(adopted, ap) else adopted
  }

  // A poll that finds a station, and may correct its row.
  function PolledSta(db: Inventory, k: Mac, corrected: bool): Inventory {
    if corrected && k in db then db[k := db[k].(role := "sta")] else db
  }

  // A device is added by hand; its product line may tell its role.
  function Added(db: Inventory, k: Mac, inferred: string): Inventory {
    var row := if k in db then db[k] else Device("", None, "");
    if inferred == "ap" then db[k := Device("ap", None, "")]
    else if inferred == "sta" && row.role == "" then db[k := row.(role := "sta")]
    else db[k := row]
  }

  // A device is deleted with its children; what refers to a deleted row loses its parent.
  predicate Goes(db: Inventory, k: Mac, gone: Mac)
    requires k in db
  {
    k == gone || db[k].parent == Some(gone)
  }

  function Deleted(db: Inventory, gone: Mac): Inventory {
    map k | k in db && !Goes(db, k, gone) ::
      if db[k].parent.Some? && db[k].parent.value in db && Goes(db, db[k].parent.value, gone)
      then db[k].(parent := None) else db[k]
  }

  datatype Event =
    | PollWaveAp(ap: Mac, peers: seq<Peer>, corrected: bool)
    | PollAirMaxAp(ap: Mac, peers: seq<Peer>, corrected: bool)
    | PollSta(sta: Mac, corrected: bool)
    | Add(device: Mac, inferred: string)
    | Break
    | Delete(gone: Mac)

  function Apply(db: Inventory, e: Event): Inventory {
    match e
    case PollWaveAp(ap, peers, corrected) => PolledWaveAp(db, ap, peers, corrected)
    case PollAirMaxAp(ap, peers, corrected) => PolledAirMaxAp(db, ap, peers, corrected)
    case PollSta(k, corrected) => PolledSta(db, k, corrected)
    case Add(k, inferred) => Added(db, k, inferred)
    case Break => BreakLoops(db)
    case Delete(k) => Deleted(db, k)
  }

  function ApplyAll(db: Inventory, events: seq<Event>): Inventory {
    if events == [] then db else Apply(ApplyAll(db, events[..|events| - 1]), events[|events| - 1])
  }

  ghost predicate HasChild(db: Inventory, k: Mac) {
    exists c :: c in db && db[c].parent == Some(k)
  }

  // A device of unknown role is in no relationship yet.
  ghost predicate BlankAlone(db: Inventory) {
    forall k :: k in db && db[k].role == "" ==> db[k].parent.None? && !HasChild(db, k)
  }

  // Whether the poll, without correcting its row, makes someone a child of something that is no access point.
  ghost predicate Misplaces(db: Inventory, ap: Mac, peers: seq<Peer>, corrected: bool) {
    !corrected && !ApRow(db, ap) && exists i :: 0 <= i < |peers| && Adoptable(db, ap, peers[i])
  }

  // What one event needs: no row with children is turned into a station, and nobody is misplaced.
  ghost predicate KeepsForest(db: Inventory, e: Event) {
    match e
    case PollSta(k, corrected) => corrected && k in db ==> !HasChild(db, k)
    case PollWaveAp(ap, peers, corrected) => !Misplaces(db, ap, peers, corrected)
    case PollAirMaxAp(ap, peers, corrected) => !Misplaces(db, ap, peers, corrected)
    case _ => true
  }

  predicate AdoptsItself(db: Inventory, ap: Mac, peer: Peer) { Adoptable(db, ap, peer) && Lower(peer.mac) == ap }

  // What an uncorrected poll needs so that a pass can still repair what it leaves: it puts no stations under a row of
  // unknown role, unless the row turns up in its own list.
  ghost predicate Mendable(db: Inventory, ap: Mac, peers: seq<Peer>, corrected: bool) {
    Misplaces(db, ap, peers, corrected) && ap in db && db[ap].role == "" ==>
      exists i :: 0 <= i < |peers| && AdoptsItself(db, ap, peers[i])
  }

  ghost predicate Repairable(db: Inventory, e: Event) {
    match e
    case PollWaveAp(ap, peers, corrected) => Mendable(db, ap, peers, corrected)
    case PollAirMaxAp(ap, peers, corrected) => Mendable(db, ap, peers, corrected)
    case _ => true
  }

  // ---------- what single events do to single rows ----------

  // A reported peer becomes a station of the access point exactly if it can be looked up or stored and is no access
  // point; one that is loses its parent; nothing else changes.
  lemma AdoptRows(db: Inventory, ap: Mac, peer: Peer, k: Mac)
    requires Tidy(db)
    ensures var row, after := Lower(peer.mac), AdoptPeer(db, ap, peer);
            var known := row in db && !peer.missed;
            && (k != row ==> (k in after <==> k in db) && (k in db ==> after[k] == db[k]))
            && (peer.mac == "" || peer.fails || (!known && !peer.usable) ==> after == db)
            && (peer.mac != "" && !peer.fails && (known || peer.usable) ==>
                  if row in db && db[row].role == "ap" then after == db[row := Device("ap", None, "")]
                  else if ap in db then after == db[row := Device("sta", Some(ap), ap)]
                  else after == db)
  {
    if Lower(peer.mac) in db { TidyRole(db[Lower(peer.mac)]); }
  }

  // Deleting a device deletes its children; other rows stay, but for links to a deleted row.
  lemma DeleteRows(db: Inventory, gone: Mac, k: Mac)
    ensures var after := Apply(db, Delete(gone));
            && (k in after <==> k in db && k != gone && db[k].parent != Some(gone))
            && (k in after ==>
                  && after[k].role == db[k].role && after[k].parentMac == db[k].parentMac
                  && after[k].parent == if db[k].parent.Some? && db[k].parent.value in db
                                           && (db[k].parent.value == gone
                                               || db[db[k].parent.value].parent == Some(gone))
                                        then None else db[k].parent)
  {}

  // A correction sets the role of its row and, for an access point, clears its parent; adding a device by hand sets the
  // role its product line tells, if it is an access point or the row has no role yet.
  lemma EditRows(db: Inventory, k: Mac, j: Mac, inferred: string)
    ensures var after := Apply(db, PollSta(k, true));
            && after.Keys == db.Keys
            && (j in db ==> after[j] == if j == k then db[j].(role := "sta") else db[j])
    ensures k in db ==> Apply(db, PollWaveAp(k, [], true)) == Apply(db, PollAirMaxAp(k, [], true))
                                                            == db[k := Device("ap", None, "")]
    ensures Apply(db, PollSta(k, false)) == Apply(db, PollAirMaxAp(k, [], false)) == db
    ensures var after, row := Apply(db, Add(k, inferred)), if k in db then db[k] else Device("", None, "");
            after == db[k := if inferred == "ap" then Device("ap", None, "")
                             else if inferred == "sta" && row.role == "" then row.(role := "sta") else row]
  {}

  // A role in small letters without spaces around it.
  predicate PlainRole(v: string) {
    v != "" && !IsSpace(v[0]) && !IsSpace(v[|v| - 1]) && forall i :: 0 <= i < |v| ==> LowerChar(v[i]) == v[i]
  }

  lemma PlainRoleStays(v: string)
    requires PlainRole(v)
    ensures Lower(TrimSpace(v)) == v
  {}

  // What starts with "ap" is an access point, and what starts with "sta" a station, besides a few other words.
  lemma RoleExact(v: string)
    requires PlainRole(v)
    ensures NormalizeRole(v)
         == if v == "accesspoint" || v == "access_point" || v == "access-point" || HasPrefix(v, "ap") then "ap"
            else if v == "client" || v == "cpe" || HasPrefix(v, "sta") then "sta"
            else ""
  {
    PlainRoleStays(v);
    assert "ap"[..2] == "ap" && "sta"[..3] == "sta" && "station"[..3] == "sta";
    if v == "client" || v == "cpe" { OtherStart(v, "ap"); }
  }

  // ---------- tables that a pass can repair ----------

  ghost predicate Sound(db: Inventory) { Tidy(db) && Closed(db) && BlankAlone(db) }

  // Rows outside k keep their role and parent, but some may become stations under ap.
  lemma {:induction false} AdoptSound(db: Inventory, ap: Mac, peers: seq<Peer>)
    requires Tidy(db) && Closed(db)
    ensures var after := AdoptPeers(db, ap, peers);
            && Tidy(after) && Closed(after) && db.Keys <= after.Keys
            && (forall k :: k in after && after[k].role == "" ==> k in db && db[k].role == "")
            && (forall k :: k in after ==>
                  after[k].parent == Some(ap) || after[k].parent.None? || (k in db && after[k] == db[k]))
  {
    if peers != [] {
      var before := AdoptPeers(db, ap, peers[..|peers| - 1]);
      AdoptSound(db, ap, peers[..|peers| - 1]);
      AdoptStep(before, ap, peers[|peers| - 1]);
    }
  }

  lemma AdoptKeepsBlank(db: Inventory, ap: Mac, peers: seq<Peer>, k: Mac)
    requires Tidy(db) && Closed(db) && BlankAlone(db)
    requires k != ap && k in AdoptPeers(db, ap, peers) && AdoptPeers(db, ap, peers)[k].role == ""
    ensures AdoptPeers(db, ap, peers)[k].parent.None? || AdoptPeers(db, ap, peers)[k].parent == Some(ap)
    ensures !HasChild(AdoptPeers(db, ap, peers), k)
  {
    var after := AdoptPeers(db, ap, peers);
    AdoptSound(db, ap, peers);
  }

  // A blank row never becomes a child: adopting it makes it a station.
  lemma {:induction false} BlankStaysOut(db: Inventory, ap: Mac, peers: seq<Peer>)
    requires Tidy(db) && BlankAlone(db)
    ensures var after := AdoptPeers(db, ap, peers);
            Tidy(after) && forall k :: k in after && after[k].role == "" ==> after[k].parent.None?
  {
    if peers != [] {
      BlankStaysOut(db, ap, peers[..|peers| - 1]);
      AdoptStep(AdoptPeers(db, ap, peers[..|peers| - 1]), ap, peers[|peers| - 1]);
    }
  }

  lemma ClearedSound(db: Inventory, ap: Mac)
    requires Sound(db) && ap in db
    ensures Sound(db[ap := Orphaned(db[ap])])
  {
    var cleared := db[ap := Orphaned(db[ap])];
    forall k, c | k in cleared && cleared[k].role == "" && c in cleared ensures cleared[c].parent != Some(k) {}
  }

  lemma PromotedSound(db: Inventory, ap: Mac, peers: seq<Peer>)
    requires Sound(db)
    ensures Sound(Promoted(AdoptPeers(db, ap, peers), ap))
  {
    var adopted := AdoptPeers(db, ap, peers);
    var after := Promoted(adopted, ap);
    AdoptSound(db, ap, peers);
    BlankStaysOut(db, ap, peers);
    forall k, c | k in after && after[k].role == "" && c in after ensures after[c].parent != Some(k) {
      if k != ap { AdoptKeepsBlank(db, ap, peers, k); }
    }
  }

  lemma UncorrectedSound(db: Inventory, ap: Mac, peers: seq<Peer>)
    requires Sound(db) && Mendable(db, ap, peers, false)
    ensures Sound(AdoptPeers(db, ap, peers))
  {
    var after := AdoptPeers(db, ap, peers);
    AdoptSound(db, ap, peers);
    BlankStaysOut(db, ap, peers);
    if ap in db && db[ap].role == "" {
      if i :| 0 <= i < |peers| && AdoptsItself(db, ap, peers[i]) { SomeAdopted(db, ap, peers, i); }
      else { NoneUnderBlank(db, ap, peers); }
    }
    forall k, c | k in after && after[k].role == "" && c in after ensures after[c].parent != Some(k) {
      if k != ap { AdoptKeepsBlank(db, ap, peers, k); }
    }
  }

  lemma {:induction false} NoneUnderBlank(db: Inventory, ap: Mac, peers: seq<Peer>)
    requires Tidy(db) && BlankAlone(db) && ap in db && db[ap].role == ""
    requires forall i :: 0 <= i < |peers| ==> !Adoptable(db, ap, peers[i])
    ensures var after := AdoptPeers(db, ap, peers);
            Tidy(after) && after.Keys == db.Keys && !HasChild(after, ap)
            && forall k :: k in db ==> after[k].role == db[k].role
  {
    if peers != [] {
      var before := AdoptPeers(db, ap, peers[..|peers| - 1]);
      NoneUnderBlank(db, ap, peers[..|peers| - 1]);
      assert !Adoptable(before, ap, peers[|peers| - 1]);
      AdoptStep(before, ap, peers[|peers| - 1]);
    }
  }

  lemma DeletedSound(db: Inventory, gone: Mac)
    requires Sound(db)
    ensures Sound(Deleted(db, gone))
  {
    var after := Deleted(db, gone);
    forall k, c | k in after && after[k].role == "" && c in after ensures after[c].parent != Some(k) {}
  }

  lemma AddedSound(db: Inventory, k: Mac, inferred: string)
    requires Sound(db)
    ensures Sound(Added(db, k, inferred))
  {
    var after := Added(db, k, inferred);
    forall j, c | j in after && after[j].role == "" && c in after ensures after[c].parent != Some(j) {}
  }

  lemma BrokenSound(db: Inventory)
    requires Sound(db)
    ensures Sound(BreakLoops(db))
  {
    var after := BreakLoops(db);
    forall k, c | k in after && after[k].role == "" && c in after ensures after[c].parent != Some(k) {}
  }

  lemma StationSound(db: Inventory, k: Mac)
    requires Sound(db)
    ensures Sound(PolledSta(db, k, true))
  {
    var after := PolledSta(db, k, true);
    forall j, c | j in after && after[j].role == "" && c in after ensures after[c].parent != Some(j) {}
  }

  lemma PolledSound(db: Inventory, ap: Mac, peers: seq<Peer>, corrected: bool)
    requires Sound(db) && Mendable(db, ap, peers, corrected)
    ensures Sound(PolledAirMaxAp(db, ap, peers, corrected))
  {
    if corrected { PromotedSound(db, ap, peers); } else { UncorrectedSound(db, ap, peers); }
  }

  // Clearing its parent first does not change whom a poll adopts.
  lemma SameAdoptions(db: Inventory, ap: Mac, peers: seq<Peer>)
    ensures forall i :: 0 <= i < |peers|
                        ==> (Adoptable(WithoutParent(db, ap), ap, peers[i]) <==> Adoptable(db, ap, peers[i]))
    ensures forall i :: 0 <= i < |peers|
                        ==> (AdoptsItself(WithoutParent(db, ap), ap, peers[i]) <==> AdoptsItself(db, ap, peers[i]))
  {}

  lemma ApplySound(db: Inventory, e: Event)
    requires Sound(db) && Repairable(db, e)
    ensures Sound(Apply(db, e))
  {
    match e
    case PollWaveAp(ap, peers, corrected) =>
      if ap in db { ClearedSound(db, ap); }
      SameAdoptions(db, ap, peers);
      PolledSound(WithoutParent(db, ap), ap, peers, corrected);
    case PollAirMaxAp(ap, peers, corrected) => PolledSound(db, ap, peers, corrected);
    case PollSta(k, corrected) => if corrected { StationSound(db, k); }
    case Add(k, inferred) => AddedSound(db, k, inferred);
    case Break => BrokenSound(db);
    case Delete(gone) => DeletedSound(db, gone);
  }

  // Such a table has no parent of unknown role, so one pass makes it a forest.
  lemma SoundBreaks(db: Inventory)
    requires Sound(db)
    ensures Forest(BreakLoops(db))
  {
    BreakExact(db);
    forall k | k in db ensures !Unresolved(db, k) {
      TidyRole(db[k]);
      if db[k].parent.Some? { TidyRole(db[db[k].parent.value]); }
    }
  }

  lemma {:induction false} OwnRoleStays(db: Inventory, ap: Mac, peers: seq<Peer>)
    requires Tidy(db) && ap in db && db[ap].role == ""
    requires forall i :: 0 <= i < |peers| ==> !AdoptsItself(db, ap, peers[i])
    ensures var after := AdoptPeers(db, ap, peers); Tidy(after) && ap in after && after[ap].role == ""
  {
    if peers != [] {
      var before := AdoptPeers(db, ap, peers[..|peers| - 1]);
      OwnRoleStays(db, ap, peers[..|peers| - 1]);
      assert !AdoptsItself(db, ap, peers[|peers| - 1]);
      AdoptStep(before, ap, peers[|peers| - 1]);
    }
  }

  lemma NotMendable(db: Inventory, ap: Mac, peers: seq<Peer>)
    requires Sound(db) && !Mendable(db, ap, peers, false)
    ensures !Forest(BreakLoops(AdoptPeers(db, ap, peers)))
  {
    var i :| 0 <= i < |peers| && Adoptable(db, ap, peers[i]);
    var after, k := AdoptPeers(db, ap, peers), Lower(peers[i].mac);
    AdoptSound(db, ap, peers);
    OwnRoleStays(db, ap, peers);
    SomeAdopted(db, ap, peers, i);
    TextForms();
    assert Unresolved(after, k);
    BreakExact(after);
  }

  // After an event one pass leaves a forest if and only if the event is repairable.
  lemma RepairExact(db: Inventory, e: Event)
    requires Sound(db)
    ensures Forest(BreakLoops(Apply(db, e))) <==> Repairable(db, e)
  {
    if Repairable(db, e) {
      ApplySound(db, e);
      SoundBreaks(Apply(db, e));
    } else if e.PollAirMaxAp? {
      NotMendable(db, e.ap, e.peers);
    } else {
      if e.ap in db { ClearedSound(db, e.ap); }
      SameAdoptions(db, e.ap, e.peers);
      NotMendable(WithoutParent(db, e.ap), e.ap, e.peers);
    }
  }

  // ---------- which events keep the forest ----------

  lemma PromoteKeepsForest(db: Inventory, ap: Mac, peers: seq<Peer>)
    requires Tidy(db) && Forest(db)
    ensures Forest(Promoted(AdoptPeers(db, ap, peers), ap))
  {
    var adopted := AdoptPeers(db, ap, peers);
    ForestIsUnder(db, ap);
    AdoptUnder(db, ap, peers);
    ForestIsUnder(Promoted(adopted, ap), ap);
  }

  lemma ClearedForest(db: Inventory, ap: Mac)
    requires Forest(db)
    ensures Forest(WithoutParent(db, ap))
  {
    forall k | k in WithoutParent(db, ap) ensures ParentOk(WithoutParent(db, ap), k) { assert ParentOk(db, k); }
  }

  lemma ClearedTidy(db: Inventory, ap: Mac)
    requires Tidy(db)
    ensures Tidy(WithoutParent(db, ap))
  {}

  // A poll of an access point keeps the forest if and only if it misplaces nobody.
  lemma PollExact(db: Inventory, ap: Mac, peers: seq<Peer>, corrected: bool)
    requires Tidy(db) && Forest(db)
    ensures Forest(PolledAirMaxAp(db, ap, peers, corrected)) <==> !Misplaces(db, ap, peers, corrected)
  {
    if corrected { PromoteKeepsForest(db, ap, peers); } else { AdoptExact(db, ap, peers); }
  }

  // So does a Wave poll; it keeps it whatever its row said, if the row said the same when the poll was queued.
  lemma WavePollExact(db: Inventory, ap: Mac, peers: seq<Peer>, corrected: bool)
    requires Tidy(db) && Forest(db)
    ensures Forest(PolledWaveAp(db, ap, peers, corrected)) <==> !Misplaces(db, ap, peers, corrected)
    ensures corrected == !ApRow(db, ap) ==> Forest(PolledWaveAp(db, ap, peers, corrected))
  {
    ClearedForest(db, ap);
    ClearedTidy(db, ap);
    SameAdoptions(db, ap, peers);
    PollExact(WithoutParent(db, ap), ap, peers, corrected);
  }

  // Finding a station keeps the forest if and only if nothing is below it.
  lemma StationExact(db: Inventory, k: Mac)
    requires Tidy(db) && Forest(db) && k in db
    ensures Forest(PolledSta(db, k, true)) <==> !HasChild(db, k)
  {
    var after := PolledSta(db, k, true);
    TextForms();
    if c :| c in db && db[c].parent == Some(k) {
      assert ParentOk(db, c);
      ForestIsShallow(db, c);
      assert !ParentOk(after, c);
    } else {
      forall j | j in after ensures ParentOk(after, j) { assert ParentOk(db, j); }
    }
  }

  lemma DeleteKeepsForest(db: Inventory, gone: Mac)
    requires Forest(db)
    ensures Forest(Deleted(db, gone))
  {
    forall k | k in Deleted(db, gone) ensures ParentOk(Deleted(db, gone), k) { assert ParentOk(db, k); }
  }

  lemma AddKeepsForest(db: Inventory, k: Mac, inferred: string)
    requires Sound(db) && Forest(db)
    ensures Forest(Added(db, k, inferred))
  {
    TextForms();
    var after := Added(db, k, inferred);
    forall j | j in after ensures ParentOk(after, j) {
      if j in db { assert ParentOk(db, j); }
    }
  }

  // One event keeps a forest if and only if it meets its condition.
  lemma EventExact(db: Inventory, e: Event)
    requires Sound(db) && Forest(db)
    ensures Forest(Apply(db, e)) <==> KeepsForest(db, e)
  {
    match e
    case PollWaveAp(ap, peers, corrected) => WavePollExact(db, ap, peers, corrected);
    case PollAirMaxAp(ap, peers, corrected) => PollExact(db, ap, peers, corrected);
    case PollSta(k, corrected) => if corrected && k in db { StationExact(db, k); }
    case Add(k, inferred) => AddKeepsForest(db, k, inferred);
    case Break => BreakIdempotent(db);
    case Delete(gone) => DeleteKeepsForest(db, gone);
  }

  // ---------- whole runs ----------

  ghost predicate AllRepairable(db: Inventory, events: seq<Event>)
    decreases |events|
  {
    events == [] || (AllRepairable(db, events[..|events| - 1])
                     && Repairable(ApplyAll(db, events[..|events| - 1]), events[|events| - 1]))
  }

  ghost predicate AllKeepForest(db: Inventory, events: seq<Event>)
    decreases |events|
  {
    events == [] || (AllKeepForest(db, events[..|events| - 1])
                     && KeepsForest(ApplyAll(db, events[..|events| - 1]), events[|events| - 1]))
  }

  lemma {:induction false} RunStaysSound(db: Inventory, events: seq<Event>)
    requires Sound(db) && AllRepairable(db, events)
    ensures Sound(ApplyAll(db, events))
    decreases |events|
  {
    if events != [] {
      RunStaysSound(db, events[..|events| - 1]);
      ApplySound(ApplyAll(db, events[..|events| - 1]), events[|events| - 1]);
    }
  }

  lemma KeepingIsRepairable(db: Inventory, e: Event)
    requires Forest(db) && KeepsForest(db, e)
    ensures Repairable(db, e)
  {}

  lemma {:induction false} RunStaysForest(db: Inventory, events: seq<Event>)
    requires Sound(db) && Forest(db) && AllKeepForest(db, events)
    ensures Sound(ApplyAll(db, events)) && Forest(ApplyAll(db, events))
    decreases |events|
  {
    if events != [] {
      var before, e := ApplyAll(db, events[..|events| - 1]), events[|events| - 1];
      RunStaysForest(db, events[..|events| - 1]);
      EventExact(before, e);
      KeepingIsRepairable(before, e);
      ApplySound(before, e);
    }
  }

  lemma EmptySound()
    ensures Sound(map[])
  {}

  // From the empty table, or any sound one, after any repairable run of polls, additions and deletions, one pass of
  // breakStaParentLoops leaves a forest, and it stays one as long as every event meets its condition.
  lemma RunHeals(db: Inventory, before: seq<Event>, after: seq<Event>)
    requires Sound(db) && AllRepairable(db, before) && AllKeepForest(BreakLoops(ApplyAll(db, before)), after)
    ensures Forest(BreakLoops(ApplyAll(db, before)))
    ensures Forest(ApplyAll(BreakLoops(ApplyAll(db, before)), after))
  {
    RunStaysSound(db, before);
    SoundBreaks(ApplyAll(db, before));
    BrokenSound(ApplyAll(db, before));
    RunStaysForest(BreakLoops(ApplyAll(db, before)), after);
  }

  // ---------- the database table ----------

  class DeviceTable {
    var devices: Inventory

    constructor (initial: Inventory)
      ensures devices == initial
    {
      devices := initial;
    }

    method BreakStaParentLoops()
      modifies this
      ensures devices == BreakLoops(old(devices))
    {
      devices := map k | k in devices ::
        if devices[k].parent == Some(k)
           || (IsAp(devices[k]) && devices[k].parent.Some?)
           || (IsSta(devices[k]) && devices[k].parent.Some? && devices[k].parent.value in devices
               && IsSta(devices[devices[k].parent.value]))
        then devices[k].(parent := None, parentMac := "") else devices[k];
    }

    method UpdateStasInDb(ap: Mac, peers: seq<Peer>)
      modifies this
      ensures devices == AdoptPeers(old(devices), ap, peers)
    {
      for i := 0 to |peers|
        invariant devices == AdoptPeers(old(devices), ap, peers[..i])
      {
        assert peers[..i + 1][..i] == peers[..i];
        var peer := peers[i];
        if peer.mac == "" || peer.fails { continue; }
        var peerMac := Lower(peer.mac);
        if peerMac in devices && !peer.missed {
          var existing := devices[peerMac];
          if NormalizeRole(existing.role) == "ap" {
            if existing.parent.Some? || existing.parentMac != "" {
              devices := devices[peerMac := existing.(parent := None, parentMac := "")];
            }
            continue;
          }
          if ap in devices {
            devices := devices[peerMac := existing.(role := "sta", parent := Some(ap), parentMac := ap)];
          }
        } else {
          if !peer.usable { continue; }
          ghost var before := devices;
          Upsert(peerMac, ap);
          assert devices == AdoptPeer(before, ap, peer);
        }
      }
      assert peers[..|peers|] == peers;
    }

    // INSERT ... ON CONFLICT (mac) DO UPDATE: the row is an access point without parent if it was one, and else a
    // station of ap if there is such a row; every other row stays.
    method Upsert(mac: Mac, ap: Mac)
      modifies this
      ensures forall k :: k != mac ==> (k in devices <==> k in old(devices))
      ensures forall k :: k != mac && k in devices ==> devices[k] == old(devices)[k]
      ensures ApRow(old(devices), mac)
              ==> ApRow(devices, mac) && devices[mac].parent.None? && devices[mac].parentMac == ""
      ensures !ApRow(old(devices), mac) && ap in old(devices)
              ==> mac in devices && !ApRow(devices, mac) && devices[mac] == Device("sta", Some(ap), ap)
      ensures !ApRow(old(devices), mac) && ap !in old(devices) ==> devices == old(devices)
    {
      if mac in devices && devices[mac].role == "ap" {
        devices := devices[mac := devices[mac].(parent := None, parentMac := "")];
      } else if ap in devices {
        devices := devices[mac := Device("sta", Some(ap), ap)];
      }
    }
  }
}
