/**
 Handing out planes, connectors and CRTCs to leases, and the notification that parses a lease,
 rewires its CRTCs and finally gives the remaining objects to an empty lease
 (msm-lease/msm_lease_drv.c).
 */
module LeaseManager {
  import opened LeaseWiring

  const MAX_OBJECTS := 64

  /** The device's mode objects: ids in list order, names, and each connector's first encoder. */
  datatype Layout = Layout(
    planeIds: seq<int>, planeNames: seq<string>,
    connIds: seq<int>, connNames: seq<string>, connEncoder: seq<int>,
    crtcIds: seq<int>)

  function AllIds(l: Layout): seq<int> {
    l.planeIds + l.connIds + l.crtcIds
  }

  /** Mode object ids are unique across all object types. */
  ghost predicate ValidLayout(l: Layout) {
    && |l.planeNames| == |l.planeIds|
    && |l.connNames| == |l.connEncoder| == |l.connIds|
    && Distinct(AllIds(l))
  }

  /** A lease: the object ids it holds, whether it got its minor, and its two device-tree lists. */
  datatype Lease = Lease(ids: seq<int>, hasMinor: bool, planeProp: seq<string>, connProp: seq<string>)

  datatype Rc = Ok | EInval | ENoEnt | EBusy

  datatype Parsed = Parsed(rc: Rc, ids: seq<int>)

  datatype ParsedConn = ParsedConn(rc: Rc, ids: seq<int>, encoders: seq<set<int>>)

  datatype Manager = Manager(wiring: Wiring, encoders: seq<set<int>>, leases: seq<Lease>)

  /** A step either yields a new state or reads a plane slot the driver never filled. */
  datatype Outcome = Defined(m: Manager) | UninitialisedRead

  /** Every object id held by some lease. */
  function Taken(leases: seq<Lease>): set<int> {
    set k, x | 0 <= k < |leases| && x in leases[k].ids :: x
  }

  // ---------------------------------------------------------------- adding objects

  function AddPlane(l: Layout, taken: set<int>, ids: seq<int>, name: string): Parsed
    requires |l.planeNames| == |l.planeIds|
  {
    var p := FirstAt(l.planeNames, name);
    if |ids| >= MAX_OBJECTS then Parsed(EInval, ids)
    else if p == Null then Parsed(ENoEnt, ids)
    else if l.planeIds[p] in taken || l.planeIds[p] in ids then Parsed(EBusy, ids)
    else Parsed(Ok, ids + [l.planeIds[p]])
  }

  /** The first of the first `n` CRTCs that the encoder can drive and no lease holds. */
  function PickCrtc(l: Layout, possible: set<int>, taken: set<int>, ids: seq<int>, n: nat): (c: int)
    requires n <= |l.crtcIds|
    ensures c != Null ==> 0 <= c < n && c in possible && l.crtcIds[c] !in taken && l.crtcIds[c] !in ids
    ensures forall d :: 0 <= d < (if c == Null then n else c) && d in possible ==> l.crtcIds[d] in taken || l.crtcIds[d] in ids
  {
    if n == 0 then Null
    else
      var c := PickCrtc(l, possible, taken, ids, n - 1);
      if c != Null then c
      else if n - 1 in possible && l.crtcIds[n - 1] !in taken && l.crtcIds[n - 1] !in ids then n - 1
      else Null
  }

  function AddConnector(l: Layout, encoders: seq<set<int>>, taken: set<int>, ids: seq<int>, name: string)
    : ParsedConn
    requires |l.connNames| == |l.connEncoder| == |l.connIds|
  {
    var k := FirstAt(l.connNames, name);
    if |ids| >= MAX_OBJECTS - 1 then ParsedConn(EInval, ids, encoders)
    else if k == Null then ParsedConn(ENoEnt, ids, encoders)
    else if l.connIds[k] in taken || l.connIds[k] in ids then ParsedConn(EBusy, ids, encoders)
    else if !(0 <= l.connEncoder[k] < |encoders|) then ParsedConn(ENoEnt, ids, encoders)
    else
      var e := l.connEncoder[k];
      var c := PickCrtc(l, encoders[e], taken, ids, |l.crtcIds|);
      if c == Null then ParsedConn(ENoEnt, ids, encoders)
      else ParsedConn(Ok, ids + [l.connIds[k], l.crtcIds[c]], encoders[e := {c}])
  }

  /** Adds planes by name until one fails. */
  function AddPlanes(l: Layout, taken: set<int>, names: seq<string>, n: nat): Parsed
    requires |l.planeNames| == |l.planeIds| && n <= |names|
  {
    if n == 0 then Parsed(Ok, [])
    else
      var r := AddPlanes(l, taken, names, n - 1);
      if r.rc != Ok then r else AddPlane(l, taken, r.ids, names[n - 1])
  }

  /** Adds connectors by name until one fails. */
  function AddConnectors(l: Layout, encoders: seq<set<int>>, taken: set<int>, ids: seq<int>,
                         names: seq<string>, n: nat): ParsedConn
    requires |l.connNames| == |l.connEncoder| == |l.connIds| && n <= |names|
  {
    if n == 0 then ParsedConn(Ok, ids, encoders)
    else
      var r := AddConnectors(l, encoders, taken, ids, names, n - 1);
      if r.rc != Ok then r else AddConnector(l, r.encoders, taken, r.ids, names[n - 1])
  }

  function ParseObjs(l: Layout, encoders: seq<set<int>>, taken: set<int>, lease: Lease): ParsedConn
    requires ValidLayout(l)
  {
    var planes := AddPlanes(l, taken, lease.planeProp, |lease.planeProp|);
    if lease.planeProp == [] then ParsedConn(Ok, [], encoders)
    else if planes.rc != Ok then ParsedConn(planes.rc, planes.ids, encoders)
    else if lease.connProp == [] then ParsedConn(Ok, [], encoders)
    else if |lease.connProp| > |planes.ids| then ParsedConn(EInval, planes.ids, encoders)
    else AddConnectors(l, encoders, taken, planes.ids, lease.connProp, |lease.connProp|)
  }

  /** Appends the unleased ones among the first `n` of `from`, up to the object limit. */
  function AddUnleased(taken: set<int>, ids: seq<int>, from: seq<int>, n: nat): seq<int>
    requires n <= |from|
  {
    if n == 0 then ids
    else
      var r := AddUnleased(taken, ids, from, n - 1);
      var x := from[n - 1];
      if |r| >= MAX_OBJECTS || x in taken || x in r then r else r + [x]
  }

  /** What the remaining-objects pass collects for the lease it picked. */
  function CollectRemaining(l: Layout, encoders: seq<set<int>>, taken: set<int>, lease: Lease): ParsedConn
    requires ValidLayout(l)
  {
    var planes := if lease.planeProp != [] then AddPlanes(l, taken, lease.planeProp, |lease.planeProp|).ids
                  else AddUnleased(taken, [], l.planeIds, |l.planeIds|);
    if lease.connProp != [] then
      AddConnectors(l, encoders, taken, planes, lease.connProp, |lease.connProp|)
    else
      var conns := AddUnleased(taken, planes, l.connIds, |l.connIds|);
      ParsedConn(Ok, AddUnleased(taken, conns, l.crtcIds, |l.crtcIds|), encoders)
  }

  // ---------------------------------------------------------------- rewiring and notification

  /** Positions in `table` of those `ids` that are in it, in the order of `ids`. */
  function Select(table: seq<int>, ids: seq<int>): (r: seq<int>)
    ensures Indices(r, |table|) && |r| <= |ids|
  {
    if ids == [] then []
    else
      var r := Select(table, ids[..|ids| - 1]);
      var i := FirstAt(table, ids[|ids| - 1]);
      if i == Null then r else r + [i]
  }

  predicate Fits(l: Layout, w: Wiring) {
    |w.primary| == |l.crtcIds| && |w.isPrimary| == |w.planeCrtc| == |l.planeIds|
  }

  predicate EnoughPlanes(l: Layout, ids: seq<int>) {
    |Select(l.crtcIds, ids)| <= |Select(l.planeIds, ids)|
  }

  function Fixup(l: Layout, w: Wiring, ids: seq<int>): (r: Wiring)
    requires Fits(l, w) && EnoughPlanes(l, ids)
    ensures Fits(l, r)
  {
    if ids == [] then w else Rewire(w, Select(l.crtcIds, ids), Select(l.planeIds, ids))
  }

  /** Records `ids` as lease `k`'s objects and rewires its CRTCs. */
  function Install(l: Layout, m: Manager, k: nat, ids: seq<int>): (o: Outcome)
    requires Fits(l, m.wiring) && k < |m.leases|
    ensures o.Defined? ==> Fits(l, o.m.wiring) && |o.m.leases| == |m.leases|
  {
    if !EnoughPlanes(l, ids) then UninitialisedRead
    else Defined(m.(leases := m.leases[k := m.leases[k].(ids := ids)], wiring := Fixup(l, m.wiring, ids)))
  }

  /** The last lease without objects, unless some lease has no minor yet. */
  function RemainTarget(leases: seq<Lease>, n: nat): (r: int)
    requires n <= |leases|
    ensures r != Null ==> 0 <= r < n && leases[r].ids == []
    ensures forall k :: 0 <= k < n && k > r ==> leases[k].ids != []
  {
    if n == 0 then Null else if leases[n - 1].ids == [] then n - 1 else RemainTarget(leases, n - 1)
  }

  predicate AllHaveMinor(leases: seq<Lease>) {
    forall k :: 0 <= k < |leases| ==> leases[k].hasMinor
  }

  function ParseRemainObjs(l: Layout, m: Manager): (o: Outcome)
    requires ValidLayout(l) && Fits(l, m.wiring)
    ensures o.Defined? ==> Fits(l, o.m.wiring) && |o.m.leases| == |m.leases|
  {
    var target := RemainTarget(m.leases, |m.leases|);
    if !AllHaveMinor(m.leases) || target == Null then Defined(m)
    else
      var r := CollectRemaining(l, m.encoders, Taken(m.leases), m.leases[target]);
      Install(l, m.(encoders := r.encoders), target, r.ids)
  }

  /** One notification of lease `k`; allocating and registering the lease's device may fail. */
  datatype Event = Event(k: nat, allocOk: bool, registerOk: bool)

  function Notify(l: Layout, m: Manager, e: Event): (o: Outcome)
    requires ValidLayout(l) && Fits(l, m.wiring)
    ensures o.Defined? ==> Fits(l, o.m.wiring) && |o.m.leases| == |m.leases|
  {
    if e.k >= |m.leases| then Defined(m)
    else
      var r := ParseObjs(l, m.encoders, Taken(m.leases), m.leases[e.k]);
      var m1 := m.(encoders := r.encoders);
      if r.rc != Ok || !e.allocOk then Defined(m1)
      else
        var m2 := m1.(leases := m1.leases[e.k := m1.leases[e.k].(hasMinor := true)]);
        var o := Install(l, m2, e.k, r.ids);
        if o.UninitialisedRead? || !e.registerOk then o else ParseRemainObjs(l, o.m)
  }

  function Run(l: Layout, m: Manager, events: seq<Event>): (o: Outcome)
    requires ValidLayout(l) && Fits(l, m.wiring)
    ensures o.Defined? ==> Fits(l, o.m.wiring) && |o.m.leases| == |m.leases|
  {
    if events == [] then Defined(m)
    else
      var o := Run(l, m, events[..|events| - 1]);
      if o.UninitialisedRead? then o else Notify(l, o.m, events[|events| - 1])
  }

  // ---------------------------------------------------------------- invariants

  /** `ids` may be added next to `taken`: new, distinct, real objects, within the limit. */
  ghost predicate Fresh(l: Layout, taken: set<int>, ids: seq<int>) {
    && |ids| <= MAX_OBJECTS && Distinct(ids)
    && (forall x :: x in ids ==> x !in taken && x in AllIds(l))
  }

  ghost predicate Exclusive(l: Layout, leases: seq<Lease>) {
    && (forall k :: 0 <= k < |leases| ==> Fresh(l, {}, leases[k].ids))
    && (forall j, k, x :: 0 <= j < k < |leases| && x in leases[j].ids ==> x !in leases[k].ids)
  }

  /** The i-th CRTC of the lease has the i-th plane of the same lease as its primary. */
  ghost predicate LeaseWired(l: Layout, w: Wiring, ids: seq<int>) {
    && Fits(l, w) && EnoughPlanes(l, ids)
    && forall i :: 0 <= i < |Select(l.crtcIds, ids)| ==>
         w.primary[Select(l.crtcIds, ids)[i]] == Select(l.planeIds, ids)[i]
  }

  ghost predicate Good(l: Layout, m: Manager) {
    && ValidLayout(l) && Fits(l, m.wiring) && Consistent(m.wiring)
    && Exclusive(l, m.leases)
    && forall k :: 0 <= k < |m.leases| ==> LeaseWired(l, m.wiring, m.leases[k].ids)
  }

  // ---------------------------------------------------------------- selecting positions

  lemma {:induction false} SelectAppend(table: seq<int>, ids: seq<int>, x: int)
    ensures Select(table, ids + [x]) == Select(table, ids) + if x in table then [FirstAt(table, x)] else []
  {
    assert (ids + [x])[..|ids|] == ids;
  }

  lemma {:induction false} SelectFacts(table: seq<int>, ids: seq<int>)
    ensures forall i :: i in Select(table, ids) ==> 0 <= i < |table| && table[i] in ids
    ensures Distinct(ids) ==> Distinct(Select(table, ids))
  {
    if ids != [] {
      var n := |ids| - 1;
      SelectFacts(table, ids[..n]);
      assert forall x :: x in ids[..n] ==> x in ids;
      if Distinct(ids) {
        assert ids[n] !in ids[..n];
      }
    }
  }

  /** Leases with no object in common select no CRTC and no plane in common. */
  lemma {:induction false} SelectDisjoint(table: seq<int>, a: seq<int>, b: seq<int>, i: int)
    requires forall x :: x in a ==> x !in b
    requires i in Select(table, a)
    ensures i !in Select(table, b)
  {
    SelectFacts(table, a);
    SelectFacts(table, b);
    var x := table[i];
    assert x in a;
    assert x !in b;
  }

  // ---------------------------------------------------------------- what parsing hands out

  lemma {:induction false} FreshAppend(l: Layout, taken: set<int>, ids: seq<int>, x: int)
    requires Fresh(l, taken, ids) && |ids| < MAX_OBJECTS
    requires x !in taken && x !in ids && x in AllIds(l)
    ensures Fresh(l, taken, ids + [x])
  {
  }

  /** Positions of the three id tables inside `AllIds`: an id is of one type only. */
  lemma {:induction false} OneType(l: Layout, x: int)
    requires ValidLayout(l)
    ensures x in l.planeIds ==> x in AllIds(l) && x !in l.crtcIds && x !in l.connIds
    ensures x in l.connIds ==> x in AllIds(l) && x !in l.crtcIds
    ensures x in l.crtcIds ==> x in AllIds(l)
  {
    var all := AllIds(l);
    var p, n := |l.planeIds|, |l.planeIds| + |l.connIds|;
    assert forall i :: 0 <= i < p ==> all[i] == l.planeIds[i];
    assert forall i :: 0 <= i < |l.connIds| ==> all[p + i] == l.connIds[i];
    assert forall i :: 0 <= i < |l.crtcIds| ==> all[n + i] == l.crtcIds[i];
  }

  lemma {:induction false} AddPlaneFresh(l: Layout, taken: set<int>, ids: seq<int>, name: string)
    requires ValidLayout(l) && Fresh(l, taken, ids)
    ensures var r := AddPlane(l, taken, ids, name);
            && Fresh(l, taken, r.ids)
            && (r.rc == Ok ==>
                  && Select(l.crtcIds, r.ids) == Select(l.crtcIds, ids)
                  && |Select(l.planeIds, r.ids)| == |Select(l.planeIds, ids)| + 1 && |r.ids| == |ids| + 1)
  {
    var p := FirstAt(l.planeNames, name);
    if AddPlane(l, taken, ids, name).rc == Ok {
      var x := l.planeIds[p];
      OneType(l, x);
      FreshAppend(l, taken, ids, x);
      SelectAppend(l.crtcIds, ids, x);
      SelectAppend(l.planeIds, ids, x);
    }
  }

  lemma {:induction false} AddConnectorFresh(l: Layout, encoders: seq<set<int>>, taken: set<int>,
                                             ids: seq<int>, name: string)
    requires ValidLayout(l) && Fresh(l, taken, ids)
    ensures var r := AddConnector(l, encoders, taken, ids, name);
            && Fresh(l, taken, r.ids)
            && Select(l.planeIds, r.ids) == Select(l.planeIds, ids)
            && (r.rc == Ok ==> |Select(l.crtcIds, r.ids)| == |Select(l.crtcIds, ids)| + 1)
  {
    hide Fresh;
    var r := AddConnector(l, encoders, taken, ids, name);
    if r.rc == Ok {
      var x := l.connIds[FirstAt(l.connNames, name)];
      var y := r.ids[|ids| + 1];
      OneType(l, x);
      OneType(l, y);
      assert r.ids == ids + [x] + [y];
      FreshAppend(l, taken, ids, x);
      FreshAppend(l, taken, ids + [x], y);
      SelectAppend(l.planeIds, ids, x);
      SelectAppend(l.planeIds, ids + [x], y);
      SelectAppend(l.crtcIds, ids, x);
      SelectAppend(l.crtcIds, ids + [x], y);
    }
  }

  lemma {:induction false} AddPlanesFresh(l: Layout, taken: set<int>, names: seq<string>, n: nat)
    requires ValidLayout(l) && n <= |names|
    ensures var r := AddPlanes(l, taken, names, n);
            && Fresh(l, taken, r.ids)
            && (r.rc == Ok ==>
                  Select(l.crtcIds, r.ids) == [] && |Select(l.planeIds, r.ids)| == n == |r.ids|)
  {
    hide Fresh, AddPlane;
    if n == 0 {
      assert Fresh(l, taken, []) by { EmptyFresh(l, taken); }
    } else {
      AddPlanesFresh(l, taken, names, n - 1);
      AddPlaneFresh(l, taken, AddPlanes(l, taken, names, n - 1).ids, names[n - 1]);
    }
  }

  lemma {:induction false} EmptyFresh(l: Layout, taken: set<int>)
    ensures Fresh(l, taken, [])
  {
  }

  lemma {:induction false} AddConnectorsFresh(l: Layout, encoders: seq<set<int>>, taken: set<int>,
                                              ids: seq<int>, names: seq<string>, n: nat)
    requires ValidLayout(l) && Fresh(l, taken, ids) && n <= |names|
    ensures var r := AddConnectors(l, encoders, taken, ids, names, n);
            && Fresh(l, taken, r.ids)
            && Select(l.planeIds, r.ids) == Select(l.planeIds, ids)
            && (r.rc == Ok ==> |Select(l.crtcIds, r.ids)| == |Select(l.crtcIds, ids)| + n)
  {
    hide Fresh, AddConnector;
    if n > 0 {
      AddConnectorsFresh(l, encoders, taken, ids, names, n - 1);
      var r := AddConnectors(l, encoders, taken, ids, names, n - 1);
      AddConnectorFresh(l, r.encoders, taken, r.ids, names[n - 1]);
    }
  }

  /** An explicitly parsed lease holds new objects only, and no more CRTCs than planes. */
  lemma {:induction false} ParseObjsFresh(l: Layout, encoders: seq<set<int>>, taken: set<int>, lease: Lease)
    requires ValidLayout(l)
    ensures var r := ParseObjs(l, encoders, taken, lease);
            r.rc == Ok ==> Fresh(l, taken, r.ids) && EnoughPlanes(l, r.ids)
  {
    var planes := AddPlanes(l, taken, lease.planeProp, |lease.planeProp|);
    AddPlanesFresh(l, taken, lease.planeProp, |lease.planeProp|);
    AddConnectorsFresh(l, encoders, taken, planes.ids, lease.connProp, |lease.connProp|);
  }

  lemma {:induction false} AddUnleasedFresh(l: Layout, taken: set<int>, ids: seq<int>, from: seq<int>, n: nat)
    requires Fresh(l, taken, ids) && n <= |from|
    requires forall i :: 0 <= i < |from| ==> from[i] in AllIds(l)
    ensures Fresh(l, taken, AddUnleased(taken, ids, from, n))
  {
    if n > 0 {
      AddUnleasedFresh(l, taken, ids, from, n - 1);
    }
  }

  lemma {:induction false} CollectRemainingFresh(l: Layout, encoders: seq<set<int>>, taken: set<int>, lease: Lease)
    requires ValidLayout(l)
    ensures Fresh(l, taken, CollectRemaining(l, encoders, taken, lease).ids)
  {
    hide Fresh, AddUnleased, AddPlanes, AddConnectors;
    EmptyFresh(l, taken);
    AddPlanesFresh(l, taken, lease.planeProp, |lease.planeProp|);
    AddUnleasedFresh(l, taken, [], l.planeIds, |l.planeIds|);
    var planes := if lease.planeProp != [] then AddPlanes(l, taken, lease.planeProp, |lease.planeProp|).ids
                  else AddUnleased(taken, [], l.planeIds, |l.planeIds|);
    AddConnectorsFresh(l, encoders, taken, planes, lease.connProp, |lease.connProp|);
    AddUnleasedFresh(l, taken, planes, l.connIds, |l.connIds|);
    AddUnleasedFresh(l, taken, AddUnleased(taken, planes, l.connIds, |l.connIds|), l.crtcIds, |l.crtcIds|);
  }

  // ---------------------------------------------------------------- what every notification keeps

  lemma {:induction false} InstallExclusive(l: Layout, leases: seq<Lease>, k: nat, ids: seq<int>)
    requires Exclusive(l, leases) && k < |leases| && Fresh(l, Taken(leases), ids)
    ensures Exclusive(l, leases[k := leases[k].(ids := ids)])
  {
    assert forall j, x :: 0 <= j < |leases| && x in leases[j].ids ==> x in Taken(leases);
  }

  lemma {:induction false} FixupWires(l: Layout, w: Wiring, ids: seq<int>)
    requires ValidLayout(l) && Fits(l, w) && Consistent(w) && Distinct(ids) && EnoughPlanes(l, ids)
    ensures Consistent(Fixup(l, w, ids)) && LeaseWired(l, Fixup(l, w, ids), ids)
  {
    hide Rewire, Bijection, CountOverlay;
    var cs, ps := Select(l.crtcIds, ids), Select(l.planeIds, ids);
    SelectFacts(l.crtcIds, ids);
    SelectFacts(l.planeIds, ids);
    RewireTheorem(w, cs, ps);
  }

  /** Rewiring one lease leaves the CRTCs of a lease with other objects alone. */
  lemma {:induction false} FixupLeavesOtherLease(l: Layout, w: Wiring, ids: seq<int>, other: seq<int>)
    requires ValidLayout(l) && Fits(l, w) && Consistent(w) && Distinct(ids) && EnoughPlanes(l, ids)
    requires LeaseWired(l, w, other) && (forall x :: x in other ==> x !in ids)
    ensures LeaseWired(l, Fixup(l, w, ids), other)
  {
    hide Rewire, Bijection, CountOverlay;
    var cs, ps := Select(l.crtcIds, ids), Select(l.planeIds, ids);
    var cs', ps' := Select(l.crtcIds, other), Select(l.planeIds, other);
    SelectFacts(l.crtcIds, ids);
    SelectFacts(l.planeIds, ids);
    forall i | 0 <= i < |cs'| ensures Fixup(l, w, ids).primary[cs'[i]] == ps'[i] {
      SelectDisjoint(l.crtcIds, other, ids, cs'[i]);
      SelectDisjoint(l.planeIds, other, ids, ps'[i]);
      RewireLeavesOthers(w, cs, ps, cs'[i]);
    }
  }

  lemma {:induction false} InstallKeeps(l: Layout, m: Manager, k: nat, ids: seq<int>)
    requires Good(l, m) && k < |m.leases| && Fresh(l, Taken(m.leases), ids) && EnoughPlanes(l, ids)
    ensures Good(l, Install(l, m, k, ids).m)
  {
    hide Fixup, Consistent, LeaseWired, EnoughPlanes;
    InstallExclusive(l, m.leases, k, ids);
    FixupWires(l, m.wiring, ids);
    var r := Install(l, m, k, ids).m;
    forall j | 0 <= j < |r.leases| ensures LeaseWired(l, r.wiring, r.leases[j].ids) {
      if j != k {
        assert forall x :: x in m.leases[j].ids ==> x in Taken(m.leases);
        FixupLeavesOtherLease(l, m.wiring, ids, m.leases[j].ids);
      }
    }
  }

  lemma {:induction false} ParseRemainKeeps(l: Layout, m: Manager)
    requires Good(l, m)
    ensures ParseRemainObjs(l, m).Defined? ==> Good(l, ParseRemainObjs(l, m).m)
  {
    hide CollectRemaining, LeaseWired, Exclusive, Fresh, Consistent, EnoughPlanes;
    var target := RemainTarget(m.leases, |m.leases|);
    if AllHaveMinor(m.leases) && target != Null {
      var taken := Taken(m.leases);
      var r := CollectRemaining(l, m.encoders, taken, m.leases[target]);
      CollectRemainingFresh(l, m.encoders, taken, m.leases[target]);
      if EnoughPlanes(l, r.ids) {
        InstallKeeps(l, m.(encoders := r.encoders), target, r.ids);
      }
    }
  }

  lemma {:induction false} NotifyKeeps(l: Layout, m: Manager, e: Event)
    requires Good(l, m)
    ensures Notify(l, m, e).Defined? ==> Good(l, Notify(l, m, e).m)
  {
    hide ParseObjs, ParseRemainObjs, LeaseWired, Fresh, Consistent, EnoughPlanes, Fixup;
    if e.k < |m.leases| {
      var r := ParseObjs(l, m.encoders, Taken(m.leases), m.leases[e.k]);
      ParseObjsFresh(l, m.encoders, Taken(m.leases), m.leases[e.k]);
      if r.rc == Ok && e.allocOk {
        var m2 := m.(encoders := r.encoders, leases := m.leases[e.k := m.leases[e.k].(hasMinor := true)]);
        assert Taken(m2.leases) == Taken(m.leases) by { TakenSame(m.leases, m2.leases); }
        InstallKeeps(l, m2, e.k, r.ids);
        ParseRemainKeeps(l, Install(l, m2, e.k, r.ids).m);
      }
    }
  }

  lemma {:induction false} TakenSame(a: seq<Lease>, b: seq<Lease>)
    requires |a| == |b| && forall k :: 0 <= k < |a| ==> a[k].ids == b[k].ids
    ensures Taken(a) == Taken(b)
  {
    assert forall x :: x in Taken(a) <==> exists k :: 0 <= k < |a| && x in a[k].ids;
  }

  /** Before the first notification no lease holds anything. */
  lemma {:induction false} InitiallyGood(l: Layout, m: Manager)
    requires ValidLayout(l) && Fits(l, m.wiring) && Consistent(m.wiring)
    requires forall k :: 0 <= k < |m.leases| ==> m.leases[k].ids == []
    ensures Good(l, m)
  {
    hide Consistent;
    assert Select(l.crtcIds, []) == [] && Select(l.planeIds, []) == [];
  }

  /**
   Over any sequence of notifications: leases stay disjoint, duplicate-free and within 64 objects,
   the wiring stays a bijection with a correct overlay count, and the i-th CRTC of every lease has
   the i-th plane of that lease as its primary.
   */
  lemma {:induction false} RunKeeps(l: Layout, m: Manager, events: seq<Event>)
    requires Good(l, m)
    ensures Run(l, m, events).Defined? ==> Good(l, Run(l, m, events).m)
  {
    hide Notify, Consistent, Exclusive, LeaseWired;
    if events != [] {
      var n := |events| - 1;
      RunKeeps(l, m, events[..n]);
      if Run(l, m, events[..n]).Defined? {
        NotifyKeeps(l, Run(l, m, events[..n]).m, events[n]);
      }
    }
  }

  // ---------------------------------------------------------------- stability

  /** A plane of the lease's own device-tree list is among the objects the lease holds. */
  ghost predicate HoldsNamed(l: Layout, lease: Lease) {
    exists n :: 0 <= n < |lease.planeProp| && NamesOneOf(l, lease.planeProp[n], lease.ids)
  }

  ghost predicate NamesOneOf(l: Layout, name: string, ids: seq<int>) {
    var p := FirstAt(l.planeNames, name); 0 <= p < |l.planeIds| && l.planeIds[p] in ids
  }

  lemma {:induction false} AddPlanesRefused(l: Layout, taken: set<int>, names: seq<string>, n: nat, k: nat, ids: seq<int>)
    requires |l.planeNames| == |l.planeIds| && k < n <= |names|
    requires NamesOneOf(l, names[k], ids) && forall x :: x in ids ==> x in taken
    ensures AddPlanes(l, taken, names, n).rc != Ok
  {
    if k < n - 1 {
      AddPlanesRefused(l, taken, names, n - 1, k, ids);
    } else {
      var x := l.planeIds[FirstAt(l.planeNames, names[k])];
      assert x in ids;
      assert x in taken;
    }
  }

  /** A lease that holds one of its named planes cannot be parsed a second time. */
  lemma {:induction false} SecondParseRefused(l: Layout, encoders: seq<set<int>>, taken: set<int>, lease: Lease)
    requires ValidLayout(l) && HoldsNamed(l, lease) && forall x :: x in lease.ids ==> x in taken
    ensures ParseObjs(l, encoders, taken, lease).rc != Ok
  {
    var k :| 0 <= k < |lease.planeProp| && NamesOneOf(l, lease.planeProp[k], lease.ids);
    AddPlanesRefused(l, taken, lease.planeProp, |lease.planeProp|, k, lease.ids);
  }

  /** Adding connectors only appends. */
  lemma {:induction false} AddConnectorsExtends(l: Layout, encoders: seq<set<int>>, taken: set<int>,
                                                ids: seq<int>, names: seq<string>, n: nat)
    requires ValidLayout(l) && n <= |names|
    ensures ids <= AddConnectors(l, encoders, taken, ids, names, n).ids
  {
    if n > 0 {
      AddConnectorsExtends(l, encoders, taken, ids, names, n - 1);
    }
  }

  lemma {:induction false} AddPlanesHoldsFirst(l: Layout, taken: set<int>, names: seq<string>, n: nat)
    requires |l.planeNames| == |l.planeIds| && 0 < n <= |names| && AddPlanes(l, taken, names, n).rc == Ok
    ensures NamesOneOf(l, names[0], AddPlanes(l, taken, names, n).ids)
  {
    if n > 1 {
      AddPlanesHoldsFirst(l, taken, names, n - 1);
    } else {
      assert AddPlanes(l, taken, names, 0) == Parsed(Ok, []);
    }
  }

  /** Every lease that got its objects from its own lists holds one of its named planes. */
  lemma {:induction false} ParsedHoldsNamed(l: Layout, encoders: seq<set<int>>, taken: set<int>, lease: Lease)
    requires ValidLayout(l)
    ensures var r := ParseObjs(l, encoders, taken, lease);
            r.rc == Ok && r.ids != [] ==> HoldsNamed(l, lease.(ids := r.ids))
  {
    var r := ParseObjs(l, encoders, taken, lease);
    if r.rc == Ok && r.ids != [] {
      hide AddPlanes, AddConnectors;
      var planes := AddPlanes(l, taken, lease.planeProp, |lease.planeProp|);
      AddPlanesHoldsFirst(l, taken, lease.planeProp, |lease.planeProp|);
      AddConnectorsExtends(l, encoders, taken, planes.ids, lease.connProp, |lease.connProp|);
      var p := FirstAt(l.planeNames, lease.planeProp[0]);
      assert l.planeIds[p] in r.ids;
      assert NamesOneOf(l, lease.(ids := r.ids).planeProp[0], r.ids);
    }
  }

  /** Lease `i` is not notified again, or is one that a second notification cannot disturb. */
  ghost predicate Undisturbed(l: Layout, m: Manager, e: Event, i: nat)
    requires i < |m.leases|
  {
    e.k == i ==> HoldsNamed(l, m.leases[i])
  }

  lemma {:induction false} NotifyLeavesLease(l: Layout, m: Manager, e: Event, i: nat)
    requires Good(l, m) && i < |m.leases| && m.leases[i].ids != [] && Undisturbed(l, m, e, i)
    ensures Notify(l, m, e).Defined? ==>
              var lease := Notify(l, m, e).m.leases[i];
              lease.ids == m.leases[i].ids && lease.planeProp == m.leases[i].planeProp
  {
    hide ParseObjs, CollectRemaining, Fixup, EnoughPlanes, Consistent, Exclusive, LeaseWired, HoldsNamed;
    if e.k == i {
      assert forall x :: x in m.leases[i].ids ==> x in Taken(m.leases);
      SecondParseRefused(l, m.encoders, Taken(m.leases), m.leases[i]);
    } else if e.k < |m.leases| {
      var r := ParseObjs(l, m.encoders, Taken(m.leases), m.leases[e.k]);
    }
  }

  /**
   Once a lease has its objects, later notifications, of other leases or of a lease with explicit
   lists again, and the remaining-objects pass they trigger, change neither those objects nor the
   primary plane of any of its CRTCs.
   */
  lemma {:induction false} RunStable(l: Layout, m: Manager, events: seq<Event>, i: nat)
    requires Good(l, m) && i < |m.leases| && m.leases[i].ids != []
    requires forall t :: 0 <= t < |events| ==> Undisturbed(l, m, events[t], i)
    ensures var o := Run(l, m, events);
            o.Defined? ==>
              && o.m.leases[i].ids == m.leases[i].ids
              && forall c :: c in Select(l.crtcIds, m.leases[i].ids) ==>
                   && o.m.wiring.primary[c] == m.wiring.primary[c]
                   && m.wiring.primary[c] in Select(l.planeIds, m.leases[i].ids)
  {
    var ids := m.leases[i].ids;
    RunLeavesLease(l, m, events, i);
    RunKeeps(l, m, events);
    var o := Run(l, m, events);
    if o.Defined? {
      hide Run, Consistent, Exclusive;
      assert LeaseWired(l, m.wiring, ids);
      assert LeaseWired(l, o.m.wiring, o.m.leases[i].ids);
    }
  }

  lemma {:induction false} RunLeavesLease(l: Layout, m: Manager, events: seq<Event>, i: nat)
    requires Good(l, m) && i < |m.leases| && m.leases[i].ids != []
    requires forall t :: 0 <= t < |events| ==> Undisturbed(l, m, events[t], i)
    ensures Run(l, m, events).Defined? ==>
              var lease := Run(l, m, events).m.leases[i];
              lease.ids == m.leases[i].ids && lease.planeProp == m.leases[i].planeProp
  {
    hide Notify, Consistent, Exclusive, LeaseWired, NamesOneOf;
    if events != [] {
      var n := |events| - 1;
      RunLeavesLease(l, m, events[..n], i);
      RunKeeps(l, m, events[..n]);
      if Run(l, m, events[..n]).Defined? {
        NotifyLeavesLease(l, Run(l, m, events[..n]).m, events[n], i);
      }
    }
  }

  /** Before the first notification: no lease has a minor or objects. */
  ghost predicate Unnotified(m: Manager) {
    forall k :: 0 <= k < |m.leases| ==> m.leases[k].ids == [] && !m.leases[k].hasMinor
  }

  ghost predicate WasNotified(events: seq<Event>, i: nat) {
    exists t :: 0 <= t < |events| && events[t].k == i
  }

  lemma {:induction false} NotifyOnlyOwn(l: Layout, m: Manager, e: Event, i: nat)
    requires ValidLayout(l) && Fits(l, m.wiring) && i < |m.leases| && e.k != i
    ensures var o := Notify(l, m, e);
            o.Defined? ==>
              && o.m.leases[i].hasMinor == m.leases[i].hasMinor
              && (!m.leases[i].hasMinor ==> o.m.leases[i].ids == m.leases[i].ids)
  {
    hide ParseObjs, CollectRemaining, Fixup, EnoughPlanes;
  }

  /** A lease has objects or a minor only after it was notified itself. */
  lemma {:induction false} HoldersWereNotified(l: Layout, m: Manager, events: seq<Event>, i: nat)
    requires ValidLayout(l) && Fits(l, m.wiring) && Unnotified(m) && i < |m.leases| && !WasNotified(events, i)
    ensures Run(l, m, events).Defined? ==>
              Run(l, m, events).m.leases[i].ids == [] && !Run(l, m, events).m.leases[i].hasMinor
  {
    hide Notify;
    if events != [] {
      var n := |events| - 1;
      assert forall t :: 0 <= t < n ==> events[..n][t] == events[t];
      assert events[n].k != i;
      HoldersWereNotified(l, m, events[..n], i);
      if Run(l, m, events[..n]).Defined? {
        NotifyOnlyOwn(l, Run(l, m, events[..n]).m, events[n], i);
      }
    }
  }

  lemma {:induction false} RunSplit(l: Layout, m: Manager, a: seq<Event>, b: seq<Event>)
    requires ValidLayout(l) && Fits(l, m.wiring)
    ensures Run(l, m, a + b) == if Run(l, m, a).Defined? then Run(l, Run(l, m, a).m, b) else UninitialisedRead
  {
    hide Notify;
    if b == [] {
      assert a + b == a;
    } else {
      var n := |b| - 1;
      RunSplit(l, m, a, b[..n]);
      assert (a + b)[..|a + b| - 1] == a + b[..n];
    }
  }

  /**
   The driver notifies each lease once. Whenever in such a history a lease has objects, be it from
   its own lists or as the remaining lease, it has them ever after, and each of its CRTCs keeps its
   primary plane, which is a plane of the same lease.
   */
  lemma {:induction false} OnceStable(l: Layout, m: Manager, events: seq<Event>, n: nat, i: nat)
    requires Good(l, m) && Unnotified(m) && i < |m.leases| && n <= |events|
    requires forall s, t :: 0 <= s < t < |events| ==> events[s].k != events[t].k
    requires Run(l, m, events[..n]).Defined? && Run(l, m, events[..n]).m.leases[i].ids != []
    ensures var before, o := Run(l, m, events[..n]).m, Run(l, m, events);
            o.Defined? ==>
              && o.m.leases[i].ids == before.leases[i].ids
              && forall c :: c in Select(l.crtcIds, before.leases[i].ids) ==>
                   && o.m.wiring.primary[c] == before.wiring.primary[c]
                   && before.wiring.primary[c] in Select(l.planeIds, before.leases[i].ids)
  {
    assert ValidLayout(l) && Fits(l, m.wiring);
    hide Run, Good, Select, Fits;
    var a, b := events[..n], events[n..];
    var before := Run(l, m, a).m;
    assert a + b == events;
    RunSplit(l, m, a, b);
    RunKeeps(l, m, a);
    assert WasNotified(a, i) by {
      if !WasNotified(a, i) {
        HoldersWereNotified(l, m, a, i);
      }
    }
    NotAgain(events, n, i);
    forall s | 0 <= s < |b| ensures Undisturbed(l, before, b[s], i) {
      assert b[s] == events[n + s];
    }
    RunStable(l, before, b, i);
  }

  lemma {:induction false} NotAgain(events: seq<Event>, n: nat, i: nat)
    requires n <= |events| && WasNotified(events[..n], i)
    requires forall s, t :: 0 <= s < t < |events| ==> events[s].k != events[t].k
    ensures forall s :: n <= s < |events| ==> events[s].k != i
  {
    var t :| 0 <= t < n && events[..n][t].k == i;
    assert events[t].k == i;
  }

  // ---------------------------------------------------------------- the remaining objects

  /** Reference definition: the ids that no lease holds, in list order. */
  function Unleased(taken: set<int>, from: seq<int>): seq<int> {
    if from == [] then []
    else
      var r := Unleased(taken, from[..|from| - 1]);
      if from[|from| - 1] in taken then r else r + [from[|from| - 1]]
  }

  function Cap(s: seq<int>): seq<int> {
    if |s| <= MAX_OBJECTS then s else s[..MAX_OBJECTS]
  }

  lemma {:induction false} UnleasedMembers(taken: set<int>, from: seq<int>)
    ensures forall x :: x in Unleased(taken, from) <==> x in from && x !in taken
    ensures Distinct(from) ==> Distinct(Unleased(taken, from))
  {
    if from != [] {
      var n := |from| - 1;
      UnleasedMembers(taken, from[..n]);
      assert forall x :: x in from <==> x in from[..n] || x == from[n];
      if Distinct(from) {
        assert from[n] !in from[..n];
      }
    }
  }

  lemma {:induction false} UnleasedConcat(taken: set<int>, a: seq<int>, b: seq<int>)
    ensures Unleased(taken, a + b) == Unleased(taken, a) + Unleased(taken, b)
  {
    if b == [] {
      assert a + b == a;
    } else {
      var n := |b| - 1;
      UnleasedConcat(taken, a, b[..n]);
      assert (a + b)[..|a + b| - 1] == a + b[..n];
    }
  }

  lemma {:induction false} AddUnleasedIsCapped(taken: set<int>, base: seq<int>, from: seq<int>, n: nat)
    requires Distinct(from) && n <= |from| && (forall x :: x in from ==> x !in base)
    ensures AddUnleased(taken, Cap(base), from, n) == Cap(base + Unleased(taken, from[..n]))
  {
    if n > 0 {
      AddUnleasedIsCapped(taken, base, from, n - 1);
      var x, u := from[n - 1], Unleased(taken, from[..n - 1]);
      assert from[..n][..n - 1] == from[..n - 1] && from[..n][n - 1] == x;
      assert x !in base + u by { UnleasedMembers(taken, from[..n - 1]); }
      hide Unleased, Cap, Distinct;
      CapStep(base + u, x);
      assert base + (u + [x]) == base + u + [x];
    } else {
      assert from[..0] == [] && base + [] == base;
    }
  }

  lemma {:induction false} CapStep(s: seq<int>, x: int)
    requires x !in s
    ensures x !in Cap(s)
    ensures Cap(s + [x]) == if |Cap(s)| >= MAX_OBJECTS then Cap(s) else Cap(s) + [x]
  {
    assert forall y :: y in Cap(s) ==> y in s;
  }

  lemma {:induction false} CollectIsCapped(l: Layout, encoders: seq<set<int>>, taken: set<int>, lease: Lease)
    requires ValidLayout(l) && lease.planeProp == [] && lease.connProp == []
    ensures CollectRemaining(l, encoders, taken, lease).ids == Cap(Unleased(taken, AllIds(l)))
  {
    hide AddUnleased, Unleased, Cap;
    var p, q, c := l.planeIds, l.connIds, l.crtcIds;
    LayoutParts(l);
    assert p[..|p|] == p && q[..|q|] == q && c[..|c|] == c;
    var up, uq := Unleased(taken, p), Unleased(taken, q);
    assert Cap([]) == [] by { CapEmpty(); }
    AddUnleasedIsCapped(taken, [], p, |p|);
    assert [] + up == up;
    UnleasedMembers(taken, p);
    UnleasedMembers(taken, q);
    assert forall x :: x in q ==> x !in up;
    AddUnleasedIsCapped(taken, up, q, |q|);
    assert forall x :: x in c ==> x !in up + uq;
    AddUnleasedIsCapped(taken, up + uq, c, |c|);
    UnleasedConcat(taken, p, q);
    UnleasedConcat(taken, p + q, c);
  }

  lemma {:induction false} CapEmpty()
    ensures Cap([]) == []
  {
  }

  lemma {:induction false} LayoutParts(l: Layout)
    requires ValidLayout(l)
    ensures Distinct(l.planeIds) && Distinct(l.connIds) && Distinct(l.crtcIds)
    ensures forall x :: x in l.connIds ==> x !in l.planeIds
    ensures forall x :: x in l.crtcIds ==> x !in l.planeIds && x !in l.connIds
  {
    var all := AllIds(l);
    assert all[..|l.planeIds|] == l.planeIds;
    assert all[|l.planeIds|..|l.planeIds| + |l.connIds|] == l.connIds;
    assert all[|l.planeIds| + |l.connIds|..] == l.crtcIds;
    forall x ensures x in l.connIds ==> x !in l.planeIds
      ensures x in l.crtcIds ==> x !in l.planeIds && x !in l.connIds
    {
      OneType(l, x);
    }
  }

  /** The state in which the remaining-objects pass runs for a lease without explicit lists. */
  ghost predicate RemainReady(l: Layout, m: Manager) {
    && Good(l, m) && AllHaveMinor(m.leases)
    && var t := RemainTarget(m.leases, |m.leases|);
       t != Null && m.leases[t].planeProp == [] && m.leases[t].connProp == []
  }

  /**
   When the remaining-objects pass completes, the (still disjoint) leases together hold every plane,
   connector and CRTC exactly when at most 64 objects had been left.
   */
  lemma {:induction false} RemainPartition(l: Layout, m: Manager)
    requires RemainReady(l, m) && ParseRemainObjs(l, m).Defined?
    ensures var r := ParseRemainObjs(l, m).m;
            && Exclusive(l, r.leases)
            && ((forall x :: x in AllIds(l) ==> x in Taken(r.leases)) <==>
                |Unleased(Taken(m.leases), AllIds(l))| <= MAX_OBJECTS)
  {
    hide Consistent, LeaseWired, Exclusive, CollectRemaining, Fixup, EnoughPlanes;
    ParseRemainKeeps(l, m);
    var t, taken := RemainTarget(m.leases, |m.leases|), Taken(m.leases);
    var u := Unleased(taken, AllIds(l));
    CollectIsCapped(l, m.encoders, taken, m.leases[t]);
    UnleasedMembers(taken, AllIds(l));
    var r := ParseRemainObjs(l, m).m;
    TakenAfterInstall(m.leases, r.leases, t, Cap(u));
    if |u| > MAX_OBJECTS {
      var x := u[MAX_OBJECTS];
      assert x in u && x !in Cap(u);
      assert x in AllIds(l) && x !in Taken(r.leases);
    }
  }

  lemma {:induction false} TakenAfterInstall(a: seq<Lease>, b: seq<Lease>, k: nat, ids: seq<int>)
    requires k < |a| && a[k].ids == [] && b == a[k := a[k].(ids := ids)]
    ensures forall x :: x in Taken(b) <==> x in Taken(a) || x in ids
  {
    forall x ensures x in Taken(b) <==> x in Taken(a) || x in ids {
      if x in ids {
        assert x in b[k].ids;
      }
      if x in Taken(a) {
        var j :| 0 <= j < |a| && x in a[j].ids;
        assert x in b[j].ids;
      }
      if x in Taken(b) && x !in ids {
        var j :| 0 <= j < |b| && x in b[j].ids;
        assert x in a[j].ids;
      }
    }
  }

  lemma {:induction false} SelectConcat(table: seq<int>, a: seq<int>, b: seq<int>)
    ensures Select(table, a + b) == Select(table, a) + Select(table, b)
  {
    if b == [] {
      assert a + b == a;
    } else {
      hide Select;
      var n := |b| - 1;
      SelectConcat(table, a, b[..n]);
      SelectAppend(table, a + b[..n], b[n]);
      SelectAppend(table, b[..n], b[n]);
      assert b == b[..n] + [b[n]] && a + b == a + b[..n] + [b[n]];
    }
  }

  lemma {:induction false} SelectCount(table: seq<int>, ids: seq<int>)
    ensures (forall x :: x in ids ==> x in table) ==> |Select(table, ids)| == |ids|
    ensures (forall x :: x in ids ==> x !in table) ==> Select(table, ids) == []
  {
    if ids != [] {
      hide Select;
      var n := |ids| - 1;
      SelectCount(table, ids[..n]);
      SelectAppend(table, ids[..n], ids[n]);
      assert ids == ids[..n] + [ids[n]];
      assert forall x :: x in ids <==> x in ids[..n] || x == ids[n];
    }
  }

  function Min(a: int, b: int): int { if a <= b then a else b }

  /** The `i`-th name of a plane list is a known, unleased plane not named before, and there is room. */
  ghost predicate PlaneOk(l: Layout, taken: set<int>, names: seq<string>, i: nat)
    requires i < |names| && |l.planeNames| == |l.planeIds|
  {
    var p := FirstAt(l.planeNames, names[i]);
    && i < MAX_OBJECTS && p != Null && l.planeIds[p] !in taken
    && forall j :: 0 <= j < i ==> FirstAt(l.planeNames, names[j]) != p
  }

  /** How many names at the start of a plane list can be leased. */
  ghost function NamedPlanes(l: Layout, taken: set<int>, names: seq<string>, n: nat): (r: nat)
    requires n <= |names| && |l.planeNames| == |l.planeIds|
    ensures r <= n
  {
    if n == 0 then 0
    else
      var r := NamedPlanes(l, taken, names, n - 1);
      if r == n - 1 && PlaneOk(l, taken, names, n - 1) then n else r
  }

  predicate Free(taken: set<int>, ids: seq<int>, id: int) { id !in taken && id !in ids }

  /** CRTC `c` is the first one the encoder can drive that nobody holds. */
  ghost predicate FirstFreeCrtc(l: Layout, possible: set<int>, taken: set<int>, ids: seq<int>, c: int) {
    && 0 <= c < |l.crtcIds| && c in possible && Free(taken, ids, l.crtcIds[c])
    && forall d :: 0 <= d < c && d in possible ==> !Free(taken, ids, l.crtcIds[d])
  }

  /** The connector has an encoder that can drive a free CRTC. */
  ghost predicate HasCrtc(l: Layout, encoders: seq<set<int>>, taken: set<int>, ids: seq<int>, k: int)
    requires 0 <= k < |l.connEncoder|
  {
    0 <= l.connEncoder[k] < |encoders| &&
    exists c :: 0 <= c < |l.crtcIds| && c in encoders[l.connEncoder[k]] && Free(taken, ids, l.crtcIds[c])
  }

  /** The name is that of a free connector that has such a CRTC, and two places are left. */
  ghost predicate ConnOk(l: Layout, encoders: seq<set<int>>, taken: set<int>, ids: seq<int>, name: string)
    requires |l.connNames| == |l.connEncoder| == |l.connIds|
  {
    var k := FirstAt(l.connNames, name);
    |ids| + 2 <= MAX_OBJECTS && k != Null && Free(taken, ids, l.connIds[k]) && HasCrtc(l, encoders, taken, ids, k)
  }

  /** A connector was added: its id and that of its CRTC, which its encoder now drives and no other. */
  ghost predicate ConnAdded(l: Layout, encoders: seq<set<int>>, taken: set<int>, ids: seq<int>, name: string, r: ParsedConn)
    requires |l.connNames| == |l.connEncoder| == |l.connIds| && ConnOk(l, encoders, taken, ids, name)
  {
    var k := FirstAt(l.connNames, name); var e := l.connEncoder[k];
    exists c :: FirstFreeCrtc(l, encoders[e], taken, ids, c)
                && r.ids == ids + [l.connIds[k], l.crtcIds[c]] && r.encoders == encoders[e := {c}]
  }

  /** Exactly when a connector is added, exactly what is added, and the code of each refusal, which changes nothing. */
  lemma {:induction false} AddConnectorMeans(l: Layout, encoders: seq<set<int>>, taken: set<int>, ids: seq<int>, name: string)
    requires |l.connNames| == |l.connEncoder| == |l.connIds|
    ensures var r := AddConnector(l, encoders, taken, ids, name); var k := FirstAt(l.connNames, name);
            && (r.rc == Ok <==> ConnOk(l, encoders, taken, ids, name))
            && (r.rc == Ok ==> ConnAdded(l, encoders, taken, ids, name, r))
            && (r.rc != Ok ==> r.ids == ids && r.encoders == encoders)
            && (r.rc == EInval <==> |ids| + 2 > MAX_OBJECTS)
            && (r.rc == EBusy <==> |ids| + 2 <= MAX_OBJECTS && k != Null && !Free(taken, ids, l.connIds[k]))
  {
    var k := FirstAt(l.connNames, name);
    if k != Null && 0 <= l.connEncoder[k] < |encoders| {
      var c := PickCrtc(l, encoders[l.connEncoder[k]], taken, ids, |l.crtcIds|);
      assert c != Null ==> FirstFreeCrtc(l, encoders[l.connEncoder[k]], taken, ids, c);
    }
  }

  /** The same for planes. */
  lemma {:induction false} AddPlaneMeans(l: Layout, taken: set<int>, ids: seq<int>, name: string)
    requires |l.planeNames| == |l.planeIds|
    ensures var r := AddPlane(l, taken, ids, name); var p := FirstAt(l.planeNames, name);
            && (r.rc == Ok <==> |ids| + 1 <= MAX_OBJECTS && p != Null && Free(taken, ids, l.planeIds[p]))
            && (r.rc == Ok ==> r.ids == ids + [l.planeIds[p]])
            && (r.rc != Ok ==> r.ids == ids)
            && (r.rc == EInval <==> |ids| + 1 > MAX_OBJECTS)
            && (r.rc == EBusy <==> |ids| + 1 <= MAX_OBJECTS && p != Null && !Free(taken, ids, l.planeIds[p]))
  {
  }

  /** How many names at the start of a connector list get a connector and a CRTC, each seeing what the ones before took. */
  ghost function NamedConnectors(l: Layout, encoders: seq<set<int>>, taken: set<int>, ids: seq<int>,
                                 names: seq<string>): (r: nat)
    requires |l.connNames| == |l.connEncoder| == |l.connIds|
    ensures r <= |names|
    decreases |names|
  {
    if names == [] || !ConnOk(l, encoders, taken, ids, names[0]) then 0
    else
      var k := FirstAt(l.connNames, names[0]); var e := l.connEncoder[k];
      var c := PickCrtc(l, encoders[e], taken, ids, |l.crtcIds|);
      if c == Null then 0
      else 1 + NamedConnectors(l, encoders[e := {c}], taken, ids + [l.connIds[k], l.crtcIds[c]], names[1..])
  }

  lemma {:induction false} NamedFront(l: Layout, encoders: seq<set<int>>, taken: set<int>, ids: seq<int>, names: seq<string>)
    requires |l.connNames| == |l.connEncoder| == |l.connIds|
    ensures NamedConnectors(l, encoders, taken, ids, names) ==
            if names == [] then 0
            else
              var first := AddConnector(l, encoders, taken, ids, names[0]);
              if first.rc != Ok then 0 else 1 + NamedConnectors(l, first.encoders, taken, first.ids, names[1..])
  {
    if names != [] {
      AddConnectorMeans(l, encoders, taken, ids, names[0]);
      hide ConnOk, ConnAdded;
    }
  }

  /** Adding a list of connectors from its front. */
  lemma {:induction false} AddConnectorsFront(l: Layout, encoders: seq<set<int>>, taken: set<int>, ids: seq<int>,
                                              names: seq<string>, n: nat)
    requires |l.connNames| == |l.connEncoder| == |l.connIds| && 0 < n <= |names|
    ensures var first := AddConnector(l, encoders, taken, ids, names[0]);
            AddConnectors(l, encoders, taken, ids, names, n) ==
            if first.rc != Ok then first else AddConnectors(l, first.encoders, taken, first.ids, names[1..], n - 1)
  {
    hide AddConnector;
    if n == 1 {
      assert AddConnectors(l, encoders, taken, ids, names, 0) == ParsedConn(Ok, ids, encoders);
    } else {
      AddConnectorsFront(l, encoders, taken, ids, names, n - 1);
      assert names[1..][n - 2] == names[n - 1];
    }
  }

  /**
   The `j`-th named connector is at its place, followed by a CRTC that its encoder could drive before
   the list was parsed.
   */
  ghost predicate PairAt(l: Layout, encoders: seq<set<int>>, names: seq<string>, j: nat, pair: seq<int>)
    requires |l.connNames| == |l.connEncoder| == |l.connIds| && j < |names| && |pair| == 2
  {
    var k := FirstAt(l.connNames, names[j]);
    && k != Null && pair[0] == l.connIds[k] && 0 <= l.connEncoder[k] < |encoders|
    && exists c :: 0 <= c < |l.crtcIds| && c in encoders[l.connEncoder[k]] && pair[1] == l.crtcIds[c]
  }

  ghost predicate PairsAdded(l: Layout, encoders: seq<set<int>>, ids: seq<int>, names: seq<string>, r: ParsedConn, n: nat)
    requires |l.connNames| == |l.connEncoder| == |l.connIds| && n <= |names|
  {
    && |r.ids| == |ids| + 2 * n && ids <= r.ids && |r.encoders| == |encoders|
    && (forall f :: 0 <= f < |encoders| ==> r.encoders[f] <= encoders[f])
    && forall j :: 0 <= j < n ==> PairAt(l, encoders, names, j, r.ids[|ids| + 2 * j..|ids| + 2 * j + 2])
  }

  lemma {:induction false} PairsFront(l: Layout, encoders: seq<set<int>>, taken: set<int>, ids: seq<int>,
                                      names: seq<string>, r: ParsedConn, n: nat)
    requires |l.connNames| == |l.connEncoder| == |l.connIds| && n < |names|
    requires ConnOk(l, encoders, taken, ids, names[0])
    requires var first := AddConnector(l, encoders, taken, ids, names[0]);
             ConnAdded(l, encoders, taken, ids, names[0], first) && PairsAdded(l, first.encoders, first.ids, names[1..], r, n)
    ensures PairsAdded(l, encoders, ids, names, r, n + 1)
  {
    hide AddConnector;
    var first := AddConnector(l, encoders, taken, ids, names[0]);
    var k := FirstAt(l.connNames, names[0]);
    var c :| FirstFreeCrtc(l, encoders[l.connEncoder[k]], taken, ids, c)
             && first.ids == ids + [l.connIds[k], l.crtcIds[c]] && first.encoders == encoders[l.connEncoder[k] := {c}];
    forall j | 0 <= j < n + 1 ensures PairAt(l, encoders, names, j, r.ids[|ids| + 2 * j..|ids| + 2 * j + 2]) {
      if j == 0 {
        assert r.ids[|ids|..|ids| + 2] == first.ids[|ids|..];
      } else {
        assert PairAt(l, first.encoders, names[1..], j - 1, r.ids[|first.ids| + 2 * (j - 1)..|first.ids| + 2 * (j - 1) + 2]);
        assert names[1..][j - 1] == names[j];
      }
    }
  }

  /**
   A connector list is accepted up to its first name that cannot be leased; each accepted name adds
   its connector and a CRTC its encoder can drive, in order; encoders are only ever narrowed.
   */
  lemma {:induction false} AddConnectorsNamed(l: Layout, encoders: seq<set<int>>, taken: set<int>, ids: seq<int>,
                                              names: seq<string>)
    requires |l.connNames| == |l.connEncoder| == |l.connIds|
    ensures var r := AddConnectors(l, encoders, taken, ids, names, |names|);
            var n := NamedConnectors(l, encoders, taken, ids, names);
            (r.rc == Ok <==> n == |names|) && PairsAdded(l, encoders, ids, names, r, n)
    decreases |names|
  {
    if names != [] {
      AddConnectorsFront(l, encoders, taken, ids, names, |names|);
      AddConnectorMeans(l, encoders, taken, ids, names[0]);
      var first := AddConnector(l, encoders, taken, ids, names[0]);
      if first.rc == Ok {
        AddConnectorsNamed(l, first.encoders, taken, first.ids, names[1..]);
        hide PairsAdded, ConnAdded, ConnOk;
        PairsFront(l, encoders, taken, ids, names, AddConnectors(l, encoders, taken, ids, names, |names|),
                   NamedConnectors(l, first.encoders, taken, first.ids, names[1..]));
      }
    }
  }

  /** The planes the remaining-objects pass gives to a lease. */
  ghost function PlanesGiven(l: Layout, taken: set<int>, lease: Lease): nat
    requires ValidLayout(l)
  {
    if lease.planeProp != [] then NamedPlanes(l, taken, lease.planeProp, |lease.planeProp|)
    else Min(|Unleased(taken, l.planeIds)|, MAX_OBJECTS)
  }

  /**
   The CRTCs it gives to it: one for each connector it can lease by name; without a connector list
   the unleased ones, as far as the 64 places go after the planes and the unleased connectors.
   */
  ghost function CrtcsGiven(l: Layout, encoders: seq<set<int>>, taken: set<int>, lease: Lease): int
    requires ValidLayout(l)
  {
    if lease.connProp != [] then
      NamedConnectors(l, encoders, taken, PlanesOf(l, taken, lease), lease.connProp)
    else
      var room := MAX_OBJECTS - PlanesGiven(l, taken, lease);
      Min(|Unleased(taken, l.crtcIds)|, room - Min(|Unleased(taken, l.connIds)|, room))
  }

  /** The plane ids collected first, on which the connectors' places depend. */
  function PlanesOf(l: Layout, taken: set<int>, lease: Lease): seq<int>
    requires ValidLayout(l)
  {
    if lease.planeProp != [] then AddPlanes(l, taken, lease.planeProp, |lease.planeProp|).ids
    else AddUnleased(taken, [], l.planeIds, |l.planeIds|)
  }

  lemma {:induction false} AddPlanesNamed(l: Layout, taken: set<int>, names: seq<string>, n: nat)
    requires ValidLayout(l) && n <= |names|
    ensures var r, k := AddPlanes(l, taken, names, n), NamedPlanes(l, taken, names, n);
            && (r.rc == Ok <==> k == n) && |r.ids| == k
            && (forall j :: 0 <= j < k ==>
                  var p := FirstAt(l.planeNames, names[j]); p != Null && r.ids[j] == l.planeIds[p])
  {
    if n > 0 {
      AddPlanesNamed(l, taken, names, n - 1);
      var r := AddPlanes(l, taken, names, n - 1);
      if r.rc == Ok {
        LayoutParts(l);
        hide ValidLayout;
        AddPlaneNamed(l, taken, names, n - 1, r.ids);
      }
    }
  }

  lemma {:induction false} AddPlaneNamed(l: Layout, taken: set<int>, names: seq<string>, i: nat, ids: seq<int>)
    requires |l.planeNames| == |l.planeIds| && Distinct(l.planeIds) && i < |names| && |ids| == i
    requires forall j :: 0 <= j < i ==>
               var p := FirstAt(l.planeNames, names[j]); p != Null && ids[j] == l.planeIds[p]
    ensures AddPlane(l, taken, ids, names[i]).rc == Ok <==> PlaneOk(l, taken, names, i)
  {
    var p := FirstAt(l.planeNames, names[i]);
    if p != Null {
      if l.planeIds[p] in ids {
        var j :| 0 <= j < i && ids[j] == l.planeIds[p];
        assert FirstAt(l.planeNames, names[j]) == p;
      }
      if j :| 0 <= j < i && FirstAt(l.planeNames, names[j]) == p {
        assert ids[j] == l.planeIds[p];
      }
    }
  }

  /**
   Exactly which leases the explicit parse accepts and what it gives them: no plane list or no
   connector list, nothing; both lists, if every name can be leased and connectors are no more than
   planes, the named planes in order followed by each named connector with its CRTC.
   */
  lemma {:induction false} ParseObjsMeans(l: Layout, encoders: seq<set<int>>, taken: set<int>, lease: Lease)
    requires ValidLayout(l)
    ensures var r := ParseObjs(l, encoders, taken, lease);
            var p := AddPlanes(l, taken, lease.planeProp, |lease.planeProp|).ids;
            var allPlanes := NamedPlanes(l, taken, lease.planeProp, |lease.planeProp|) == |lease.planeProp|;
            && (r.rc == Ok <==>
                  lease.planeProp == [] ||
                  (allPlanes && (lease.connProp == [] ||
                                 (|lease.connProp| <= |lease.planeProp| &&
                                  NamedConnectors(l, encoders, taken, p, lease.connProp) == |lease.connProp|))))
            && (lease.planeProp != [] && !allPlanes ==>
                  r.rc == AddPlanes(l, taken, lease.planeProp, |lease.planeProp|).rc && r.encoders == encoders)
            && (lease.planeProp != [] && allPlanes && |lease.connProp| > |lease.planeProp| ==> r.rc == EInval && r.encoders == encoders)
            && (r.rc == Ok && (lease.planeProp == [] || lease.connProp == []) ==> r.ids == [] && r.encoders == encoders)
            && (r.rc == Ok && lease.planeProp != [] && lease.connProp != [] ==>
                  PairsAdded(l, encoders, p, lease.connProp, r, |lease.connProp|))
  {
    AddPlanesNamed(l, taken, lease.planeProp, |lease.planeProp|);
    var p := AddPlanes(l, taken, lease.planeProp, |lease.planeProp|).ids;
    AddConnectorsNamed(l, encoders, taken, p, lease.connProp);
    hide AddPlanes, AddConnectors, NamedPlanes, NamedConnectors, PairsAdded, PlaneOk;
  }

  lemma {:induction false} PlanesOfFacts(l: Layout, taken: set<int>, lease: Lease)
    requires ValidLayout(l)
    ensures var ps := PlanesOf(l, taken, lease);
            Fresh(l, taken, ps) && |ps| == PlanesGiven(l, taken, lease) && forall x :: x in ps ==> x in l.planeIds
  {
    var ps := PlanesOf(l, taken, lease);
    if lease.planeProp != [] {
      AddPlanesFresh(l, taken, lease.planeProp, |lease.planeProp|);
      AddPlanesNamed(l, taken, lease.planeProp, |lease.planeProp|);
    } else {
      LayoutParts(l);
      EmptyFresh(l, taken);
      assert forall i :: 0 <= i < |l.planeIds| ==> AllIds(l)[i] == l.planeIds[i];
      AddUnleasedFresh(l, taken, [], l.planeIds, |l.planeIds|);
      AddUnleasedIsCapped(taken, [], l.planeIds, |l.planeIds|);
      assert l.planeIds[..|l.planeIds|] == l.planeIds && [] + Unleased(taken, l.planeIds) == Unleased(taken, l.planeIds);
      CapEmpty();
      UnleasedMembers(taken, l.planeIds);
    }
  }

  lemma {:induction false} NamedConnectorsCount(l: Layout, encoders: seq<set<int>>, taken: set<int>,
                                                ids: seq<int>, names: seq<string>)
    requires ValidLayout(l) && Fresh(l, taken, ids)
    ensures |Select(l.crtcIds, AddConnectors(l, encoders, taken, ids, names, |names|).ids)| ==
            |Select(l.crtcIds, ids)| + NamedConnectors(l, encoders, taken, ids, names)
    decreases |names|
  {
    hide Select, Fresh, AddConnector, ConnOk, ConnAdded, NamedConnectors;
    NamedFront(l, encoders, taken, ids, names);
    if names != [] {
      hide AddConnectors;
      AddConnectorsFront(l, encoders, taken, ids, names, |names|);
      AddConnectorMeans(l, encoders, taken, ids, names[0]);
      AddConnectorFresh(l, encoders, taken, ids, names[0]);
      var first := AddConnector(l, encoders, taken, ids, names[0]);
      if first.rc == Ok {
        NamedConnectorsCount(l, first.encoders, taken, first.ids, names[1..]);
      }
    }
  }

  /** Without a connector list the collected ids are the planes, then connectors, then CRTCs, cut at 64. */
  lemma {:induction false} CollectUnnamed(l: Layout, encoders: seq<set<int>>, taken: set<int>, lease: Lease)
    requires ValidLayout(l) && lease.connProp == []
    ensures CollectRemaining(l, encoders, taken, lease).ids ==
            Cap(PlanesOf(l, taken, lease) + Unleased(taken, l.connIds) + Unleased(taken, l.crtcIds))
  {
    PlanesOfFacts(l, taken, lease);
    LayoutParts(l);
    hide AddUnleased, Unleased, PlanesOf, ValidLayout;
    var ps, q, c := PlanesOf(l, taken, lease), l.connIds, l.crtcIds;
    assert Cap(ps) == ps;
    assert q[..|q|] == q && c[..|c|] == c;
    assert forall x :: x in q ==> x !in ps;
    AddUnleasedIsCapped(taken, ps, q, |q|);
    UnleasedMembers(taken, q);
    assert forall x :: x in c ==> x !in ps + Unleased(taken, q);
    AddUnleasedIsCapped(taken, ps + Unleased(taken, q), c, |c|);
    assert CollectRemaining(l, encoders, taken, lease).ids ==
           AddUnleased(taken, AddUnleased(taken, ps, q, |q|), c, |c|) by { PlanesOfFirst(l, encoders, taken, lease); }
  }

  lemma {:induction false} PlanesOfFirst(l: Layout, encoders: seq<set<int>>, taken: set<int>, lease: Lease)
    requires ValidLayout(l)
    ensures var ps, r := PlanesOf(l, taken, lease), CollectRemaining(l, encoders, taken, lease);
            r.ids == if lease.connProp != []
                     then AddConnectors(l, encoders, taken, ps, lease.connProp, |lease.connProp|).ids
                     else AddUnleased(taken, AddUnleased(taken, ps, l.connIds, |l.connIds|), l.crtcIds, |l.crtcIds|)
  {
  }

  /** A cut after 64 places keeps all of `a`, then what fits of `b`, then what fits of `c`. */
  lemma {:induction false} CapSplits(a: seq<int>, b: seq<int>, c: seq<int>)
    requires |a| <= MAX_OBJECTS
    ensures var i := Min(|b|, MAX_OBJECTS - |a|); var j := Min(|c|, MAX_OBJECTS - |a| - i);
            0 <= i <= |b| && 0 <= j <= |c| && Cap(a + b + c) == a + b[..i] + c[..j]
  {
  }

  lemma {:induction false} SelectParts(l: Layout, ps: seq<int>, q: seq<int>, c: seq<int>)
    requires ValidLayout(l)
    requires (forall x :: x in ps ==> x in l.planeIds) && (forall x :: x in q ==> x in l.connIds)
    requires forall x :: x in c ==> x in l.crtcIds
    ensures |Select(l.planeIds, ps + q + c)| == |ps| && |Select(l.crtcIds, ps + q + c)| == |c|
  {
    LayoutParts(l);
    hide Select, ValidLayout;
    SelectConcat(l.planeIds, ps, q);
    SelectConcat(l.planeIds, ps + q, c);
    SelectConcat(l.crtcIds, ps, q);
    SelectConcat(l.crtcIds, ps + q, c);
    assert forall x :: x in ps ==> x !in l.crtcIds;
    assert forall x :: x in q ==> x !in l.planeIds && x !in l.crtcIds;
    assert forall x :: x in c ==> x !in l.planeIds;
    SelectCount(l.planeIds, ps);
    SelectCount(l.planeIds, q);
    SelectCount(l.planeIds, c);
    SelectCount(l.crtcIds, ps);
    SelectCount(l.crtcIds, q);
    SelectCount(l.crtcIds, c);
  }

  /** The two counts are what the pass collects, with or without either list and whether it is cut or not. */
  lemma {:induction false} GivenCounts(l: Layout, encoders: seq<set<int>>, taken: set<int>, lease: Lease)
    requires ValidLayout(l)
    ensures var r := CollectRemaining(l, encoders, taken, lease);
            && |Select(l.planeIds, r.ids)| == PlanesGiven(l, taken, lease)
            && |Select(l.crtcIds, r.ids)| == CrtcsGiven(l, encoders, taken, lease)
  {
    hide Select, CollectRemaining, PlanesOf, ValidLayout, Fresh;
    var ps := PlanesOf(l, taken, lease);
    PlanesOfFacts(l, taken, lease);
    if lease.connProp != [] {
      PlanesOfFirst(l, encoders, taken, lease);
      AddConnectorsFresh(l, encoders, taken, ps, lease.connProp, |lease.connProp|);
      NamedConnectorsCount(l, encoders, taken, ps, lease.connProp);
      SelectParts(l, ps, [], []);
      assert ps + [] + [] == ps;
    } else {
      var uq, uc := Unleased(taken, l.connIds), Unleased(taken, l.crtcIds);
      CollectUnnamed(l, encoders, taken, lease);
      UnleasedMembers(taken, l.connIds);
      UnleasedMembers(taken, l.crtcIds);
      hide Unleased;
      FreshFits(l, taken, ps);
      CapSplits(ps, uq, uc);
      var i := Min(|uq|, MAX_OBJECTS - |ps|);
      var j := Min(|uc|, MAX_OBJECTS - |ps| - i);
      assert (forall x :: x in uq[..i] ==> x in uq) && forall x :: x in uc[..j] ==> x in uc;
      SelectParts(l, ps, uq[..i], uc[..j]);
    }
  }

  lemma {:induction false} FreshFits(l: Layout, taken: set<int>, ids: seq<int>)
    requires Fresh(l, taken, ids)
    ensures |ids| <= MAX_OBJECTS
  {
  }

  /** The pass runs for some lease and gives it more CRTCs than planes. */
  ghost predicate RunsShort(l: Layout, m: Manager)
    requires ValidLayout(l)
  {
    var t := RemainTarget(m.leases, |m.leases|); var taken := Taken(m.leases);
    AllHaveMinor(m.leases) && t != Null &&
    CrtcsGiven(l, m.encoders, taken, m.leases[t]) > PlanesGiven(l, taken, m.leases[t])
  }

  /**
   Nothing checks that the remaining lease has a plane for each of its CRTCs. For every target, with
   no list, a plane list, a connector list or both, and however many objects are left, the pass
   stays within the filled plane slots exactly when it does not give more CRTCs than planes.
   */
  lemma {:induction false} RemainDefinedIff(l: Layout, m: Manager)
    requires ValidLayout(l) && Fits(l, m.wiring)
    ensures ParseRemainObjs(l, m).Defined? <==> !RunsShort(l, m)
  {
    hide CollectRemaining, Fixup, Select, CrtcsGiven, PlanesGiven, ValidLayout, Fits;
    var t, taken := RemainTarget(m.leases, |m.leases|), Taken(m.leases);
    if t != Null {
      GivenCounts(l, m.encoders, taken, m.leases[t]);
    }
  }

  /** The state in which a notification that gets that far starts the pass. */
  ghost function Recorded(l: Layout, m: Manager, e: Event): Manager
    requires ValidLayout(l) && e.k < |m.leases|
  {
    var r := ParseObjs(l, m.encoders, Taken(m.leases), m.leases[e.k]);
    m.(encoders := r.encoders, leases := m.leases[e.k := m.leases[e.k].(hasMinor := true, ids := r.ids)])
  }

  ghost predicate NotificationRunsShort(l: Layout, m: Manager, e: Event)
    requires ValidLayout(l)
  {
    && e.k < |m.leases| && e.allocOk && e.registerOk
    && ParseObjs(l, m.encoders, Taken(m.leases), m.leases[e.k]).rc == Ok
    && RunsShort(l, Recorded(l, m, e))
  }

  lemma {:induction false} NotifyDefinedIff(l: Layout, m: Manager, e: Event)
    requires Good(l, m)
    ensures Notify(l, m, e).Defined? <==> !NotificationRunsShort(l, m, e)
  {
    hide ParseObjs, ParseRemainObjs, Fixup, RunsShort, EnoughPlanes, Consistent, Exclusive, LeaseWired, Fresh;
    if e.k < |m.leases| {
      var r := ParseObjs(l, m.encoders, Taken(m.leases), m.leases[e.k]);
      ParseObjsFresh(l, m.encoders, Taken(m.leases), m.leases[e.k]);
      if r.rc == Ok && e.allocOk {
        var m2 := m.(encoders := r.encoders, leases := m.leases[e.k := m.leases[e.k].(hasMinor := true)]);
        var m3, rec := Install(l, m2, e.k, r.ids).m, Recorded(l, m, e);
        RemainDefinedIff(l, m3);
        assert m3.leases == rec.leases && m3.encoders == rec.encoders;
        assert RunsShort(l, m3) == RunsShort(l, rec) by { ShortByLeases(l, m3, rec); }
      }
    }
  }

  /**
   The leases after a notification: unchanged if the parse or the allocation fails, although the
   encoders narrowed by the parse so far stay narrowed; otherwise the
   lease has its minor and the parsed objects, and if all have minors and the registration succeeds,
   the last lease left without objects has what the pass collects.
   */
  lemma {:induction false} NotifyLeases(l: Layout, m: Manager, e: Event)
    requires ValidLayout(l) && Fits(l, m.wiring) && e.k < |m.leases| && Notify(l, m, e).Defined?
    ensures var r := ParseObjs(l, m.encoders, Taken(m.leases), m.leases[e.k]); var after := Notify(l, m, e).m;
            var rec := Recorded(l, m, e); var t := RemainTarget(rec.leases, |rec.leases|);
            if r.rc != Ok || !e.allocOk then after == m.(encoders := r.encoders)
            else if e.registerOk && AllHaveMinor(rec.leases) && t != Null then
              after.leases == rec.leases[t := rec.leases[t].(ids :=
                CollectRemaining(l, rec.encoders, Taken(rec.leases), rec.leases[t]).ids)]
            else after.leases == rec.leases
  {
    hide ParseObjs, CollectRemaining, Fixup, EnoughPlanes, Taken;
    var r := ParseObjs(l, m.encoders, Taken(m.leases), m.leases[e.k]);
    if r.rc == Ok && e.allocOk {
      var m2 := m.(encoders := r.encoders, leases := m.leases[e.k := m.leases[e.k].(hasMinor := true)]);
      assert Install(l, m2, e.k, r.ids).m.leases == Recorded(l, m, e).leases;
    }
  }

  lemma {:induction false} ShortByLeases(l: Layout, a: Manager, b: Manager)
    requires ValidLayout(l) && a.leases == b.leases && a.encoders == b.encoders
    ensures RunsShort(l, a) == RunsShort(l, b)
  {
    hide CrtcsGiven, PlanesGiven;
  }

  /** No notification of the history runs short. */
  ghost predicate NoneShort(l: Layout, m: Manager, events: seq<Event>)
    requires ValidLayout(l) && Fits(l, m.wiring)
  {
    forall n :: 0 <= n < |events| ==> !ShortAt(l, Run(l, m, events[..n]), events[n])
  }

  ghost predicate ShortAt(l: Layout, o: Outcome, e: Event)
    requires ValidLayout(l)
  {
    o.Defined? && NotificationRunsShort(l, o.m, e)
  }

  lemma {:induction false} NoneShortStep(l: Layout, m: Manager, events: seq<Event>)
    requires ValidLayout(l) && Fits(l, m.wiring) && events != []
    ensures var n := |events| - 1;
            NoneShort(l, m, events) <==>
            NoneShort(l, m, events[..n]) && !ShortAt(l, Run(l, m, events[..n]), events[n])
  {
    hide ShortAt, Run, ValidLayout, Fits;
    var n := |events| - 1;
    assert forall k :: 0 <= k < n ==> events[..n][..k] == events[..k];
  }

  lemma {:induction false} NoneShortAtFirst(l: Layout, m: Manager)
    requires ValidLayout(l) && Fits(l, m.wiring)
    ensures NoneShort(l, m, [])
  {
  }

  /** A history never reads an unfilled plane slot exactly when none of its notifications runs short. */
  lemma {:induction false} RunDefinedIff(l: Layout, m: Manager, events: seq<Event>)
    requires Good(l, m)
    ensures Run(l, m, events).Defined? <==> NoneShort(l, m, events)
  {
    assert ValidLayout(l) && Fits(l, m.wiring);
    hide Notify, NoneShort, NotificationRunsShort, Good, ValidLayout, Fits;
    if events == [] {
      NoneShortAtFirst(l, m);
    } else {
      var n := |events| - 1;
      NoneShortStep(l, m, events);
      RunDefinedIff(l, m, events[..n]);
      RunKeeps(l, m, events[..n]);
      if Run(l, m, events[..n]).Defined? {
        NotifyDefinedIff(l, Run(l, m, events[..n]).m, events[n]);
      }
    }
  }

  // Two planes, two connectors with an encoder each, two CRTCs; the first lease names both planes
  // and one connector, the second lease names nothing.
  const ExLayout := Layout([1, 2], ["p", "q"], [6, 7], ["a", "b"], [0, 1], [4, 5])
  const ExFirst := Lease([], false, ["p", "q"], ["a"])
  const ExRest := Lease([], false, [], [])
  const ExStart := Manager(Wiring([0, 1], [true, true], [0, 1], 0), [{0}, {1}], [ExFirst, ExRest])

  lemma {:induction false} ExampleStart()
    ensures ValidLayout(ExLayout) && Good(ExLayout, ExStart) && Taken(ExStart.leases) == {}
  {
    ExampleWiring();
    hide Consistent, Good;
    assert ValidLayout(ExLayout);
    InitiallyGood(ExLayout, ExStart);
  }

  lemma {:induction false} ExampleWiring()
    ensures Consistent(ExStart.wiring)
  {
    var w := ExStart.wiring;
    assert Owned(w, 0) && Owned(w, 1) by { assert w.primary[0] == 0 && w.primary[1] == 1; }
    assert w.isPrimary[..1] == [true] && [true][..0] == [];
    assert CountOverlay([true]) == 0;
  }

  lemma {:induction false} ExampleFirstLease()
    requires ValidLayout(ExLayout)
    ensures ParseObjs(ExLayout, ExStart.encoders, {}, ExFirst) == ParsedConn(Ok, [1, 2, 6, 4], [{0}, {1}])
  {
    var l := ExLayout;
    assert AddPlanes(l, {}, ["p", "q"], 1) == Parsed(Ok, [1]);
    assert AddPlanes(l, {}, ["p", "q"], 2) == Parsed(Ok, [1, 2]);
    assert PickCrtc(l, {0}, {}, [1, 2], 1) == 0;
    assert PickCrtc(l, {0}, {}, [1, 2], 2) == 0;
    assert [{0}, {1}][0 := {0}] == [{0}, {1}];
    assert AddConnectors(l, ExStart.encoders, {}, [1, 2], ["a"], 1) == ParsedConn(Ok, [1, 2, 6, 4], [{0}, {1}]);
  }

  lemma {:induction false} ExampleUnleased(taken: set<int>)
    requires taken == {1, 2, 6, 4}
    ensures Unleased(taken, ExLayout.planeIds) == [] && |Unleased(taken, ExLayout.crtcIds)| > 0
    ensures |Unleased(taken, ExLayout.connIds)| < MAX_OBJECTS
  {
    assert Unleased(taken, [1]) == [];
    UnleasedMembers(taken, ExLayout.crtcIds);
    assert 5 in Unleased(taken, ExLayout.crtcIds);
    UnleasedShort(taken, ExLayout.connIds);
  }

  lemma {:induction false} TakenPair(a: Lease, b: Lease)
    ensures Taken([a, b]) == (set x | x in a.ids) + (set x | x in b.ids)
  {
    var s := [a, b];
    forall x ensures x in Taken(s) <==> x in a.ids || x in b.ids {
      if x in a.ids {
        assert x in s[0].ids;
      }
      if x in b.ids {
        assert x in s[1].ids;
      }
    }
  }

  /**
   As many planes as CRTCs on the device is not enough: a first lease may take two planes for one
   CRTC, and the remaining lease is then rewired from plane slots that were never filled.
   */
  lemma {:induction false} RemainMayRunOutOfPlanes()
    ensures exists l, m, events ::
              && Good(l, m) && |l.planeIds| == |l.crtcIds|
              && Run(l, m, events) == UninitialisedRead
  {
    hide Notify, Good, ParseRemainObjs;
    var l, m := ExLayout, ExStart;
    var e0, e1 := Event(0, true, true), Event(1, true, true);
    ExampleStart();
    var o := Notify(l, m, e0);
    ExampleFirstNotified();
    ExampleRestNotified(l, o.m);
    ExampleOutOfPlanes(l, o.m);
    assert [e0, e1][..1] == [e0] && [e0][..0] == [];
    assert Run(l, m, [e0]) == o;
    assert Run(l, m, [e0, e1]) == UninitialisedRead;
  }

  const ExHeld := Lease([1, 2, 6, 4], true, ["p", "q"], ["a"])

  lemma {:induction false} ExampleFirstNotified()
    requires ValidLayout(ExLayout) && Good(ExLayout, ExStart) && Taken(ExStart.leases) == {}
    ensures var o := Notify(ExLayout, ExStart, Event(0, true, true));
            o.Defined? && Good(ExLayout, o.m) && o.m.leases == [ExHeld, ExRest]
  {
    hide Fixup, ParseObjs, Good, EnoughPlanes, CollectRemaining, Taken;
    ExampleFirstLease();
    ParseObjsFresh(ExLayout, ExStart.encoders, {}, ExFirst);
    NotifyKeeps(ExLayout, ExStart, Event(0, true, true));
  }

  lemma {:induction false} ExampleOutOfPlanes(l: Layout, m: Manager)
    requires l == ExLayout && ValidLayout(l) && Fits(l, m.wiring) && m.leases == [ExHeld, ExRest]
    ensures ParseRemainObjs(l, m.(leases := [ExHeld, ExRest.(hasMinor := true)])) == UninitialisedRead
  {
    hide ParseRemainObjs, Unleased, Taken;
    var m1 := m.(leases := [ExHeld, ExRest.(hasMinor := true)]);
    TakenPair(ExHeld, m1.leases[1]);
    ExampleUnleased(Taken(m1.leases));
    assert RemainTarget(m1.leases, 2) == 1;
    RemainDefinedIff(l, m1);
  }

  lemma {:induction false} ExampleRestNotified(l: Layout, m: Manager)
    requires ValidLayout(l) && Fits(l, m.wiring) && m.leases == [ExHeld, ExRest]
    ensures Notify(l, m, Event(1, true, true)) ==
            ParseRemainObjs(l, m.(leases := [ExHeld, ExRest.(hasMinor := true)]))
  {
    hide ParseRemainObjs, Taken;
    var ls := m.leases[1 := ExRest.(hasMinor := true)];
    assert ls == [ExHeld, ExRest.(hasMinor := true)] && ls[1 := ls[1].(ids := [])] == ls;
    assert EnoughPlanes(l, []);
  }

  lemma {:induction false} UnleasedShort(taken: set<int>, from: seq<int>)
    ensures |Unleased(taken, from)| <= |from|
  {
    if from != [] {
      UnleasedShort(taken, from[..|from| - 1]);
    }
  }

  // ---------------------------------------------------------------- the driver's loops

  method FindObjId(id: int, ids: array<int>, count: nat) returns (found: bool)
    requires count <= ids.Length
    ensures found <==> id in ids[..count]
  {
    for i := 0 to count
      invariant id !in ids[..i]
    {
      if ids[i] == id {
        return true;
      }
    }
    return false;
  }

  /** The driver's lease list together with the device objects it edits. */
  class LeaseDriver {
    const layout: Layout
    const config: ModeConfig
    var encoders: seq<set<int>>   // encoder->possible_crtcs
    var leases: seq<Lease>        // g_lease_list

    ghost function View(): Manager
      reads this, config
    {
      Manager(config.View(), encoders, leases)
    }

    ghost predicate Valid()
      reads this, config
    {
      ValidLayout(layout) && Fits(layout, config.View())
    }

    constructor (l: Layout, c: ModeConfig, encs: seq<set<int>>, ls: seq<Lease>)
      requires ValidLayout(l) && Fits(l, c.View())
      ensures Valid() && layout == l && config == c
      ensures View() == Manager(c.View(), encs, ls)
    {
      layout, config, encoders, leases := l, c, encs, ls;
    }

    method ObjIsLeased(id: int, ids: array<int>, count: nat) returns (leased: bool)
      requires count <= ids.Length
      ensures leased <==> id in Taken(leases) || id in ids[..count]
    {
      for k := 0 to |leases|
        invariant forall j :: 0 <= j < k ==> id !in leases[j].ids
      {
        if id in leases[k].ids {
          return true;
        }
      }
      leased := FindObjId(id, ids, count);
    }

    method LeasePlane(name: string, ids: array<int>, count: nat) returns (rc: Rc, newCount: nat)
      requires Valid() && ids.Length == MAX_OBJECTS && count <= MAX_OBJECTS
      modifies ids
      ensures newCount <= MAX_OBJECTS
      ensures var p := FirstAt(layout.planeNames, name);
              && (rc == Ok <==> count < MAX_OBJECTS && p != Null && Free(Taken(leases), old(ids[..count]), layout.planeIds[p]))
              && ids[..newCount] == old(ids[..count]) + if rc == Ok then [layout.planeIds[p]] else []
      ensures Parsed(rc, ids[..newCount]) ==
              AddPlane(layout, Taken(leases), old(ids[..count]), name)
    {
      AddPlaneMeans(layout, Taken(leases), ids[..count], name);
      newCount := count;
      if count >= MAX_OBJECTS {
        return EInval, count;
      }
      var p := 0;
      while p < |layout.planeNames| && layout.planeNames[p] != name
        invariant 0 <= p <= |layout.planeNames| && name !in layout.planeNames[..p]
      {
        p := p + 1;
      }
      if p == |layout.planeNames| {
        assert layout.planeNames[..p] == layout.planeNames;
        return ENoEnt, count;
      }
      assert FirstAt(layout.planeNames, name) == p;
      var leased := ObjIsLeased(layout.planeIds[p], ids, count);
      if leased {
        return EBusy, count;
      }
      ids[count] := layout.planeIds[p];
      newCount := count + 1;
      rc := Ok;
    }

    /** The CRTC loop of `msm_lease_add_connector`. */
    method FindCrtc(e: int, ids: array<int>, count: nat) returns (c: int)
      requires 0 <= e < |encoders| && count <= ids.Length
      ensures c == PickCrtc(layout, encoders[e], Taken(leases), ids[..count], |layout.crtcIds|)
    {
      for d := 0 to |layout.crtcIds|
        invariant PickCrtc(layout, encoders[e], Taken(leases), ids[..count], d) == Null
      {
        if d in encoders[e] {
          var leased := ObjIsLeased(layout.crtcIds[d], ids, count);
          if !leased {
            PickStays(layout, encoders[e], Taken(leases), ids[..count], d + 1, |layout.crtcIds|);
            return d;
          }
        }
      }
      return Null;
    }

    method LeaseConnector(name: string, ids: array<int>, count: nat) returns (rc: Rc, newCount: nat)
      requires Valid() && ids.Length == MAX_OBJECTS && count <= MAX_OBJECTS
      modifies ids, this`encoders
      ensures newCount <= MAX_OBJECTS
      ensures rc == Ok <==> old(ConnOk(layout, encoders, Taken(leases), ids[..count], name))
      ensures rc == Ok ==> ConnAdded(layout, old(encoders), Taken(leases), old(ids[..count]), name, ParsedConn(rc, ids[..newCount], encoders))
      ensures rc != Ok ==> ids[..newCount] == old(ids[..count]) && encoders == old(encoders)
      ensures ParsedConn(rc, ids[..newCount], encoders) ==
              AddConnector(layout, old(encoders), Taken(leases), old(ids[..count]), name)
    {
      AddConnectorMeans(layout, encoders, Taken(leases), ids[..count], name);
      hide ConnOk, ConnAdded;
      newCount := count;
      if count >= MAX_OBJECTS - 1 {
        return EInval, count;
      }
      var k := 0;
      while k < |layout.connNames| && layout.connNames[k] != name
        invariant 0 <= k <= |layout.connNames| && name !in layout.connNames[..k]
      {
        k := k + 1;
      }
      if k == |layout.connNames| {
        assert layout.connNames[..k] == layout.connNames;
        return ENoEnt, count;
      }
      assert FirstAt(layout.connNames, name) == k;
      var leased := ObjIsLeased(layout.connIds[k], ids, count);
      if leased {
        return EBusy, count;
      }
      var e := layout.connEncoder[k];
      if !(0 <= e < |encoders|) {
        return ENoEnt, count;
      }
      var c := FindCrtc(e, ids, count);
      if c == Null {
        return ENoEnt, count;
      }
      encoders := encoders[e := {c}];
      ids[count] := layout.connIds[k];
      ids[count + 1] := layout.crtcIds[c];
      newCount := count + 2;
      rc := Ok;
    }

    /**
     Sorts the leased ids into plane and CRTC slots, then runs the three passes; false when pass 2
     comes to a plane slot that was never filled.
     */
    method FixupCrtcPrimary(ids: array<int>, count: nat) returns (defined: bool)
      requires Valid() && count <= ids.Length == MAX_OBJECTS
      modifies config
      ensures Valid() && (defined <==> EnoughPlanes(layout, ids[..count]))
      ensures defined ==> config.View() == Fixup(layout, old(config.View()), ids[..count])
    {
      if count == 0 {
        return true;
      }
      var planes := new int[MAX_OBJECTS];
      var crtcs := new int[MAX_OBJECTS];
      var planeCount, crtcCount := SortObjects(ids, count, planes, crtcs);
      config.ResetLeasedPlanes(planes, planeCount);
      defined := config.SetLeasedPrimaries(crtcs, crtcCount, planes, planeCount);
      if defined {
        config.AssignResetCrtcs();
      }
    }

    /** The collecting loop: the plane and CRTC slots in the order of the ids. */
    method SortObjects(ids: array<int>, count: nat, planes: array<int>, crtcs: array<int>)
      returns (planeCount: nat, crtcCount: nat)
      requires count <= ids.Length == planes.Length == crtcs.Length
      requires planes != crtcs && planes != ids && crtcs != ids
      requires ValidLayout(layout)
      modifies planes, crtcs
      ensures planeCount <= planes.Length && planes[..planeCount] == Select(layout.planeIds, ids[..count])
      ensures crtcCount <= crtcs.Length && crtcs[..crtcCount] == Select(layout.crtcIds, ids[..count])
    {
      planeCount, crtcCount := 0, 0;
      for i := 0 to count
        invariant planeCount <= i && planes[..planeCount] == Select(layout.planeIds, ids[..i])
        invariant crtcCount <= i && crtcs[..crtcCount] == Select(layout.crtcIds, ids[..i])
      {
        hide FirstAt, Select;
        var id := ids[i];
        assert ids[..i + 1] == ids[..i] + [id];
        SelectAppend(layout.planeIds, ids[..i], id);
        SelectAppend(layout.crtcIds, ids[..i], id);
        OneType(layout, id);
        var p, c := FirstAt(layout.planeIds, id), FirstAt(layout.crtcIds, id);
        if p != Null {
          planes[planeCount] := p;
          planeCount := planeCount + 1;
        } else if c != Null {
          crtcs[crtcCount] := c;
          crtcCount := crtcCount + 1;
        }
      }
    }

    method ParseLease(k: nat, ids: array<int>) returns (rc: Rc, count: nat)
      requires Valid() && k < |leases| && ids.Length == MAX_OBJECTS
      modifies ids, this`encoders
      ensures count <= MAX_OBJECTS
      ensures rc == ParseObjs(layout, old(encoders), Taken(leases), leases[k]).rc
      ensures encoders == ParseObjs(layout, old(encoders), Taken(leases), leases[k]).encoders
      ensures rc == Ok ==> ids[..count] == ParseObjs(layout, old(encoders), Taken(leases), leases[k]).ids
    {
      var lease := leases[k];
      if lease.planeProp == [] {
        return Ok, 0;
      }
      rc, count := LeasePlanes(lease.planeProp, ids);
      if rc != Ok {
        return;
      }
      if lease.connProp == [] {
        return Ok, 0;
      }
      if |lease.connProp| > count {
        return EInval, count;
      }
      rc, count := LeaseConnectors(lease.connProp, ids, count);
    }

    method LeasePlanes(names: seq<string>, ids: array<int>) returns (rc: Rc, count: nat)
      requires Valid() && ids.Length == MAX_OBJECTS
      modifies ids
      ensures count <= MAX_OBJECTS
      ensures Parsed(rc, ids[..count]) == AddPlanes(layout, Taken(leases), names, |names|)
    {
      hide AddPlane;
      rc, count := Ok, 0;
      for i := 0 to |names|
        invariant count <= MAX_OBJECTS && rc == Ok
        invariant Parsed(rc, ids[..count]) == AddPlanes(layout, Taken(leases), names, i)
      {
        rc, count := LeasePlane(names[i], ids, count);
        if rc != Ok {
          AddPlanesStuck(layout, Taken(leases), names, i + 1, |names|);
          return;
        }
      }
    }

    method LeaseConnectors(names: seq<string>, ids: array<int>, start: nat) returns (rc: Rc, count: nat)
      requires Valid() && ids.Length == MAX_OBJECTS && start <= MAX_OBJECTS
      modifies ids, this`encoders
      ensures count <= MAX_OBJECTS
      ensures ParsedConn(rc, ids[..count], encoders) ==
              AddConnectors(layout, old(encoders), Taken(leases), old(ids[..start]), names, |names|)
    {
      hide AddConnector;
      ghost var before, encs := ids[..start], encoders;
      rc, count := Ok, start;
      for i := 0 to |names|
        invariant count <= MAX_OBJECTS && rc == Ok
        invariant ParsedConn(rc, ids[..count], encoders) ==
                  AddConnectors(layout, encs, Taken(leases), before, names, i)
      {
        rc, count := LeaseConnector(names[i], ids, count);
        if rc != Ok {
          AddConnectorsStuck(layout, encs, Taken(leases), before, names, i + 1, |names|);
          return;
        }
      }
    }

    /** One of the three collecting loops of the remaining-objects pass. */
    method LeaseUnleased(from: seq<int>, ids: array<int>, start: nat) returns (count: nat)
      requires ids.Length == MAX_OBJECTS && start <= MAX_OBJECTS
      modifies ids
      ensures count <= MAX_OBJECTS
      ensures ids[..count] == AddUnleased(Taken(leases), old(ids[..start]), from, |from|)
    {
      ghost var before := ids[..start];
      count := start;
      for i := 0 to |from|
        invariant count <= MAX_OBJECTS
        invariant ids[..count] == AddUnleased(Taken(leases), before, from, i)
      {
        if count >= MAX_OBJECTS {
          AddUnleasedFull(Taken(leases), before, from, i, |from|);
          break;
        }
        var leased := ObjIsLeased(from[i], ids, count);
        if !leased {
          ids[count] := from[i];
          count := count + 1;
        }
      }
    }

    /** Records the objects of lease `k`; false when a plane slot would be read before it was filled. */
    method InstallLease(k: nat, ids: array<int>, count: nat) returns (defined: bool)
      requires Valid() && k < |leases| && count <= ids.Length == MAX_OBJECTS
      modifies this`leases, config
      ensures Valid() && defined == Install(layout, old(View()), k, ids[..count]).Defined?
      ensures defined ==> View() == Install(layout, old(View()), k, ids[..count]).m
    {
      hide Fixup;
      leases := leases[k := leases[k].(ids := ids[..count])];
      defined := FixupCrtcPrimary(ids, count);
    }

    method CollectFor(k: nat, ids: array<int>) returns (count: nat)
      requires Valid() && k < |leases| && ids.Length == MAX_OBJECTS
      modifies ids, this`encoders
      ensures count <= MAX_OBJECTS
      ensures ids[..count] == CollectRemaining(layout, old(encoders), Taken(leases), leases[k]).ids
      ensures encoders == CollectRemaining(layout, old(encoders), Taken(leases), leases[k]).encoders
    {
      hide AddPlanes, AddConnectors, AddUnleased;
      var lease := leases[k];
      if |lease.planeProp| > 0 {
        var rc;
        rc, count := LeasePlanes(lease.planeProp, ids);
      } else {
        assert ids[..0] == [];
        count := LeaseUnleased(layout.planeIds, ids, 0);
      }
      if |lease.connProp| > 0 {
        var rc;
        rc, count := LeaseConnectors(lease.connProp, ids, count);
      } else {
        count := LeaseUnleased(layout.connIds, ids, count);
        count := LeaseUnleased(layout.crtcIds, ids, count);
      }
    }

    method GiveRemaining() returns (defined: bool)
      requires Valid()
      modifies this`leases, this`encoders, config
      ensures Valid() && defined == ParseRemainObjs(layout, old(View())).Defined?
      ensures defined ==> View() == ParseRemainObjs(layout, old(View())).m
    {
      hide CollectRemaining, Install;
      var target := Null;
      for k := 0 to |leases|
        invariant target == RemainTarget(leases, k)
        invariant forall j :: 0 <= j < k ==> leases[j].hasMinor
      {
        if !leases[k].hasMinor {
          return true;
        }
        if |leases[k].ids| == 0 {
          target := k;
        }
      }
      if target == Null {
        return true;
      }
      var ids := new int[MAX_OBJECTS];
      var count := CollectFor(target, ids);
      defined := InstallLease(target, ids, count);
    }

    /**
     The object part of `msm_lease_notifier`: leases stay exclusive and wired, and no unfilled plane
     slot is read unless the remaining-objects pass runs short.
     */
    method Notified(e: Event) returns (defined: bool)
      requires Valid() && e.k < |leases|
      modifies this`leases, this`encoders, config
      ensures old(Good(layout, View())) ==> (defined <==> !old(NotificationRunsShort(layout, View(), e)))
      ensures old(Good(layout, View())) && defined ==> Good(layout, View())
      ensures Valid() && defined == Notify(layout, old(View()), e).Defined?
      ensures defined ==> View() == Notify(layout, old(View()), e).m
    {
      hide ParseObjs, Install, ParseRemainObjs, Good, NotificationRunsShort;
      if Good(layout, View()) {
        NotifyDefinedIff(layout, View(), e);
        NotifyKeeps(layout, View(), e);
      }
      var ids := new int[MAX_OBJECTS];
      var rc, count := ParseLease(e.k, ids);
      if rc != Ok || !e.allocOk {
        return true;
      }
      leases := leases[e.k := leases[e.k].(hasMinor := true)];
      defined := InstallLease(e.k, ids, count);
      if defined && e.registerOk {
        defined := GiveRemaining();
      }
    }
  }

  lemma {:induction false} AddPlanesStuck(l: Layout, taken: set<int>, names: seq<string>, n: nat, n': nat)
    requires |l.planeNames| == |l.planeIds| && n <= n' <= |names| && AddPlanes(l, taken, names, n).rc != Ok
    ensures AddPlanes(l, taken, names, n') == AddPlanes(l, taken, names, n)
    decreases n'
  {
    if n < n' {
      AddPlanesStuck(l, taken, names, n, n' - 1);
    }
  }

  lemma {:induction false} AddConnectorsStuck(l: Layout, encoders: seq<set<int>>, taken: set<int>,
                                              ids: seq<int>, names: seq<string>, n: nat, n': nat)
    requires |l.connNames| == |l.connEncoder| == |l.connIds| && n <= n' <= |names|
    requires AddConnectors(l, encoders, taken, ids, names, n).rc != Ok
    ensures AddConnectors(l, encoders, taken, ids, names, n') == AddConnectors(l, encoders, taken, ids, names, n)
    decreases n'
  {
    hide AddConnector;
    if n < n' {
      AddConnectorsStuck(l, encoders, taken, ids, names, n, n' - 1);
    }
  }

  lemma {:induction false} AddUnleasedFull(taken: set<int>, ids: seq<int>, from: seq<int>, n: nat, n': nat)
    requires n <= n' <= |from| && |AddUnleased(taken, ids, from, n)| >= MAX_OBJECTS
    ensures AddUnleased(taken, ids, from, n') == AddUnleased(taken, ids, from, n)
    decreases n'
  {
    if n < n' {
      AddUnleasedFull(taken, ids, from, n, n' - 1);
    }
  }

  lemma {:induction false} PickStays(l: Layout, possible: set<int>, taken: set<int>, ids: seq<int>, n: nat, n': nat)
    requires n <= n' <= |l.crtcIds| && PickCrtc(l, possible, taken, ids, n) != Null
    ensures PickCrtc(l, possible, taken, ids, n') == PickCrtc(l, possible, taken, ids, n)
    decreases n'
  {
    if n < n' {
      PickStays(l, possible, taken, ids, n, n' - 1);
    }
  }
}
