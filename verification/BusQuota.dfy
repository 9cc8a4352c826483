/**
 Data-bus bandwidth votes (msm/sde_power_handle.c, `sde_power_data_bus_set_quota`): client demands
 are aggregated, clamped, split over the bus paths and written into a rotating use-case table.
 Quotas are u64 values.
 */
module BusQuota {

  const U64 := 0x1_0000_0000_0000_0000
  const MAX_PATHS := 3
  const ENABLE_IB := 400_000_000

  type u64 = x: int | 0 <= x < 0x1_0000_0000_0000_0000

  function Add64(a: u64, b: u64): u64 { (a + b) % U64 }

  function Max64(a: u64, b: u64): u64 { if a < b then b else a }

  datatype Vector = Vector(ab: u64, ib: u64)

  /** Demand of one client, as a real-time and as a non-real-time bus user. */
  datatype Demand = Demand(rt: Vector, nrt: Vector)

  /** Real-time bandwidth adds up and real-time peaks compete; non-real-time demands add up. */
  datatype Totals = Totals(rt: Vector, nrt: Vector)

  function Aggregate(ds: seq<Demand>): Totals {
    if ds == [] then Totals(Vector(0, 0), Vector(0, 0))
    else
      var t, d := Aggregate(ds[..|ds| - 1]), ds[|ds| - 1];
      Totals(Vector(Add64(t.rt.ab, d.rt.ab), Max64(t.rt.ib, d.rt.ib)),
             Vector(Add64(t.nrt.ab, d.nrt.ab), Add64(t.nrt.ib, d.nrt.ib)))
  }

  /** The minimum vote while enabled, no vote while disabled. */
  function Clamped(t: Totals, enabled: bool): Totals {
    if enabled then t.(rt := t.rt.(ib := Max64(t.rt.ib, ENABLE_IB))) else Totals(Vector(0, 0), Vector(0, 0))
  }

  predicate NoVote(t: Totals) { t.rt.ab == 0 && t.nrt.ab == 0 && t.rt.ib == 0 && t.nrt.ib == 0 }

  const U32 := 0x1_0000_0000

  type u32 = x: int | 0 <= x < 0x1_0000_0000

  /** The path layout of a bus: `nrt` of its `paths` are non-real-time, the last ones. */
  datatype Layout = Layout(paths: u32, nrt: u32, usecases: nat)

  /** `rt_data_paths_cnt`, a u32 difference. */
  function RtPaths(l: Layout): u32 { (l.paths - l.nrt) % U32 }

  /** Paths the driver accepts. */
  predicate Accepted(l: Layout) { 0 < l.paths <= MAX_PATHS }

  /** Nothing is divided by zero: a real-time path is left, and more than the zero use case. */
  predicate Divisible(l: Layout) { RtPaths(l) != 0 && l.usecases >= 2 }

  /** Some but not all of the accepted paths may be non-real-time. */
  predicate Usable(l: Layout) { Accepted(l) && l.nrt < l.paths && l.usecases >= 2 }

  lemma {:induction false} UsableMeans(l: Layout)
    requires Accepted(l) && l.nrt <= l.paths
    ensures Usable(l) <==> Divisible(l)
    ensures RtPaths(l) == l.paths - l.nrt
  {
  }

  lemma {:induction false} QuotientFits(x: nat, d: nat)
    requires d > 0
    ensures 0 <= x / d <= x
  {
    var q := x / d;
    assert x == d * q + x % d;
    ProductGrows(d, q);
  }

  lemma {:induction false} ProductGrows(d: nat, q: int)
    requires d > 0
    ensures q >= 0 ==> d * q >= q
    ensures q < 0 ==> d * q <= q
  {
    assert d * q == (d - 1) * q + q;
  }

  /** `div_u64`. */
  function Div64(x: u64, d: u32): u64
    requires d > 0
  {
    QuotientFits(x, d);
    x / d
  }

  function Share(rt: u64, nrt: u64, l: Layout, path: nat): u64
    requires Accepted(l) && Divisible(l)
  {
    if l.nrt == 0 then Div64(Add64(rt, nrt), l.paths)
    else if path < RtPaths(l) then Div64(rt, RtPaths(l)) else Div64(nrt, l.nrt)
  }

  function NextUsecase(curr: nat, usecases: nat): nat
    requires usecases >= 2
  {
    curr % (usecases - 1) + 1
  }

  // ---------------------------------------------------------------- properties

  function Sum(s: seq<int>): int { if s == [] then 0 else Sum(s[..|s| - 1]) + s[|s| - 1] }

  lemma {:induction false} SumOfEqual(s: seq<int>, x: int)
    requires forall i :: 0 <= i < |s| ==> s[i] == x
    ensures Sum(s) == |s| * x
  {
    if s != [] {
      SumOfEqual(s[..|s| - 1], x);
      assert |s| * x == (|s| - 1) * x + x;
    }
  }

  lemma {:induction false} Divided(x: nat, d: nat)
    requires 0 < d <= MAX_PATHS
    ensures d * (x / d) == x - x % d
  {
    if d == 1 {
    } else if d == 2 {
    } else {
    }
  }

  /** Both totals together; the sum of two u64 values may wrap, once. */
  function Together(rt: u64, nrt: u64): u64 { if rt + nrt < U64 then rt + nrt else rt + nrt - U64 }

  /** Each class gets its total in equal parts, but for a remainder smaller than its path count. */
  ghost predicate AddsUp(rt: u64, nrt: u64, l: Layout, q: seq<int>)
    requires Usable(l) && |q| == l.paths
  {
    var n := l.paths - l.nrt;
    if l.nrt == 0 then Sum(q) == Together(rt, nrt) - Together(rt, nrt) % l.paths && Equal(q)
    else Sum(q[..n]) == rt - rt % n && Sum(q[n..]) == nrt - nrt % l.nrt && Equal(q[..n]) && Equal(q[n..])
  }

  ghost predicate Equal(q: seq<int>) { forall i, j :: 0 <= i < j < |q| ==> q[i] == q[j] }

  /** The path quotas of a class add up to its total less a remainder smaller than its path count. */
  lemma {:induction false} SharesAddUp(rt: u64, nrt: u64, l: Layout, q: seq<int>)
    requires Usable(l) && Divisible(l) && |q| == l.paths && forall i :: 0 <= i < |q| ==> q[i] == Share(rt, nrt, l, i)
    ensures AddsUp(rt, nrt, l, q)
  {
    UsableMeans(l);
    hide RtPaths, Div64, Sum;
    if l.nrt == 0 {
      EqualParts(q, Add64(rt, nrt), l.paths);
    } else {
      var n := l.paths - l.nrt;
      EqualParts(q[..n], rt, n);
      EqualParts(q[n..], nrt, l.nrt);
    }
  }

  /** Equal parts add up to the total less the remainder. */
  lemma {:induction false} EqualParts(q: seq<int>, total: u64, d: u32)
    requires 0 < d <= MAX_PATHS && |q| == d && forall i :: 0 <= i < |q| ==> q[i] == Div64(total, d)
    ensures Sum(q) == total - total % d && Equal(q)
  {
    SumOfEqual(q, Div64(total, d));
    Divided(total, d);
  }

  /** The rotation stays in range and off use case 0; it leaves the active use case exactly when there are three or that is 0. */
  lemma {:induction false} RotationLeaves(curr: nat, usecases: nat)
    requires usecases >= 2 && curr < usecases
    ensures 1 <= NextUsecase(curr, usecases) < usecases
    ensures NextUsecase(curr, usecases) == if curr + 1 < usecases then curr + 1 else 1
    ensures NextUsecase(curr, usecases) != curr <==> usecases >= 3 || curr == 0
  {
    var m := usecases - 1;
    if curr < m {
      assert curr % m == curr;
    } else {
      assert curr == m && m % m == 0;
    }
  }

  /** The active use case after a sequence of requests; each says whether its vote is non-zero. */
  function Active(requests: seq<bool>, usecases: nat): nat
    requires usecases >= 2
  {
    if requests == [] then 0
    else if requests[|requests| - 1] then NextUsecase(Active(requests[..|requests| - 1], usecases), usecases)
    else 0
  }

  /** Over all runs with at least three use cases: a written vector is in range, not 0, not the active one. */
  lemma {:induction false} RunNeverWritesActive(requests: seq<bool>, usecases: nat)
    requires usecases >= 3
    ensures var active := Active(requests, usecases); var written := NextUsecase(active, usecases);
            active < usecases && 0 < written < usecases && written != active
  {
    hide NextUsecase;
    if requests != [] {
      RunNeverWritesActive(requests[..|requests| - 1], usecases);
      RotationLeaves(Active(requests[..|requests| - 1], usecases), usecases);
    }
    RotationLeaves(Active(requests, usecases), usecases);
  }

  /** With two use cases the second non-zero request in a row overwrites the active vector. */
  lemma {:induction false} TwoUsecasesCollide()
    ensures Active([true], 2) == 1 && NextUsecase(1, 2) == 1
  {
    assert [true][..0] == [];
  }

  /** The three quantities that add up over clients. */
  datatype Quantity = RtAb | NrtAb | NrtIb

  function Asked(d: Demand, q: Quantity): u64 {
    match q case RtAb => d.rt.ab case NrtAb => d.nrt.ab case NrtIb => d.nrt.ib
  }

  function Granted(t: Totals, q: Quantity): u64 {
    match q case RtAb => t.rt.ab case NrtAb => t.nrt.ab case NrtIb => t.nrt.ib
  }

  function ExactSum(ds: seq<Demand>, q: Quantity): nat {
    if ds == [] then 0 else ExactSum(ds[..|ds| - 1], q) + Asked(ds[|ds| - 1], q)
  }

  lemma {:induction false} SumCovers(ds: seq<Demand>, q: Quantity, i: nat)
    requires i < |ds|
    ensures Asked(ds[i], q) <= ExactSum(ds, q)
  {
    var n := |ds| - 1;
    if i < n {
      assert ds[..n][i] == ds[i];
      SumCovers(ds[..n], q, i);
    }
  }

  /** Each total is the clients' sum modulo 2^64; it is the sum, and covers every client, when that does not wrap. */
  lemma {:induction false} AggregateCovers(ds: seq<Demand>, q: Quantity)
    ensures Granted(Aggregate(ds), q) == ExactSum(ds, q) % U64
    ensures Granted(Aggregate(ds), q) == ExactSum(ds, q) <==> ExactSum(ds, q) < U64
    ensures ExactSum(ds, q) < U64 ==> forall i :: 0 <= i < |ds| ==> Asked(ds[i], q) <= Granted(Aggregate(ds), q)
  {
    AggregateWraps(ds, q);
    hide Aggregate, ExactSum;
    forall i | 0 <= i < |ds| ensures Asked(ds[i], q) <= ExactSum(ds, q) {
      SumCovers(ds, q, i);
    }
  }

  lemma {:induction false} AggregateWraps(ds: seq<Demand>, q: Quantity)
    ensures Granted(Aggregate(ds), q) == ExactSum(ds, q) % U64
  {
    if ds != [] {
      AggregateWraps(ds[..|ds| - 1], q);
      WrapAdds(ExactSum(ds[..|ds| - 1], q), Asked(ds[|ds| - 1], q));
    }
  }

  lemma {:induction false} WrapAdds(x: nat, y: u64)
    ensures (x % U64 + y) % U64 == (x + y) % U64
  {
    var k := x / U64;
    assert x + y == k * U64 + (x % U64 + y);
  }

  /** The real-time peak is at least every client's and is one of them. */
  lemma {:induction false} PeakCovers(ds: seq<Demand>)
    ensures forall i :: 0 <= i < |ds| ==> ds[i].rt.ib <= Aggregate(ds).rt.ib
    ensures Aggregate(ds).rt.ib == 0 || exists i :: 0 <= i < |ds| && ds[i].rt.ib == Aggregate(ds).rt.ib
  {
    if ds != [] {
      var n := |ds| - 1;
      PeakCovers(ds[..n]);
      assert forall i :: 0 <= i < n ==> ds[..n][i] == ds[i];
      if Aggregate(ds).rt.ib != 0 && Aggregate(ds).rt.ib != ds[n].rt.ib {
        var i :| 0 <= i < n && ds[..n][i].rt.ib == Aggregate(ds[..n]).rt.ib;
        assert ds[i].rt.ib == Aggregate(ds).rt.ib;
      }
    }
  }

  // ---------------------------------------------------------------- the driver's objects

  /** `Fault` is a division by zero. */
  datatype Rc = Ok | EInval | Fault

  function Abs(row: seq<Vector>): seq<int> { seq(|row|, i requires 0 <= i < |row| => row[i].ab) }

  function Ibs(row: seq<Vector>): seq<int> { seq(|row|, i requires 0 <= i < |row| => row[i].ib) }

  /** A written row shares out both quotas of both classes. */
  ghost predicate SharedOut(row: seq<Vector>, t: Totals, l: Layout)
    requires Usable(l) && |row| == l.paths
  {
    AddsUp(t.rt.ab, t.nrt.ab, l, Abs(row)) && AddsUp(t.rt.ib, t.nrt.ib, l, Ibs(row))
  }

  lemma {:induction false} RowSharedOut(row: seq<Vector>, t: Totals, l: Layout)
    requires Usable(l) && Divisible(l) && |row| == l.paths
    requires forall i :: 0 <= i < |row| ==> row[i] == PathVote(t, l, i)
    ensures SharedOut(row, t, l)
  {
    hide AddsUp, Share;
    SharesAddUp(t.rt.ab, t.nrt.ab, l, Abs(row));
    SharesAddUp(t.rt.ib, t.nrt.ib, l, Ibs(row));
  }

  /** The real-time peak that is voted for while the bus is enabled: what is asked for, but at least 400 MB/s. */
  ghost predicate Peak(asked: u64, voted: u64) {
    voted >= 400_000_000 && voted >= asked && (voted == 400_000_000 || voted == asked)
  }

  /** The row of an enabled bus: the totals shared out with such a peak. */
  ghost predicate Voted(row: seq<Vector>, totals: Totals, l: Layout) {
    exists peak: u64 :: Peak(totals.rt.ib, peak) && RowOf(row, Totals(Vector(totals.rt.ab, peak), totals.nrt), l)
  }

  ghost predicate RowOf(row: seq<Vector>, t: Totals, l: Layout) {
    && |row| == l.paths && Accepted(l) && Divisible(l)
    && (forall i :: 0 <= i < |row| ==> row[i] == PathVote(t, l, i))
    && (Usable(l) ==> SharedOut(row, t, l))
  }

  lemma {:induction false} ClampedMeans(t: Totals, enabled: bool)
    ensures !enabled ==> NoVote(Clamped(t, enabled))
    ensures enabled ==>
              var c := Clamped(t, enabled);
              !NoVote(c) && c == Totals(Vector(t.rt.ab, c.rt.ib), t.nrt) && Peak(t.rt.ib, c.rt.ib)
  {
  }

  /** `sde_power_data_bus_handle` with its use-case table. */
  class DataBus {
    const layout: Layout
    var registered: bool
    var enabled: bool
    var curr: nat
    var stored: Totals
    var table: seq<seq<Vector>>   // usecase[i].vectors

    ghost predicate Valid()
      reads this
    {
      && |table| == layout.usecases && curr < layout.usecases
      && (forall u :: 0 <= u < |table| ==> |table[u]| == layout.paths)
    }

    constructor (l: Layout, t: seq<seq<Vector>>)
      requires l.usecases >= 1 && |t| == l.usecases && forall u :: 0 <= u < |t| ==> |t[u]| == l.paths
      ensures Valid() && layout == l && table == t && curr == 0 && registered && !enabled
    {
      layout, table, curr, registered, enabled := l, t, 0, true, false;
      stored := Totals(Vector(0, 0), Vector(0, 0));
    }

    /** `_sde_power_data_bus_set_quota`. */
    method SetQuota(totals: Totals) returns (rc: Rc)
      requires Valid()
      modifies this`stored, this`curr, this`table
      ensures Valid()
      ensures !registered ==> rc == EInval && stored == old(stored)
      ensures registered ==> stored == totals
      ensures rc != Ok ==> curr == old(curr) && table == old(table)
      ensures registered && !enabled ==> rc == Ok && curr == 0 && table == old(table)
      ensures registered && enabled ==>
                rc == if !Accepted(layout) then EInval else if !Divisible(layout) then Fault else Ok
      ensures registered && enabled && rc == Ok ==>
                && curr == (if old(curr) + 1 < layout.usecases then old(curr) + 1 else 1)
                && (layout.usecases >= 3 ==> curr != old(curr))
                && (forall u :: 0 <= u < |table| && u != curr ==> table[u] == old(table)[u])
                && Voted(table[curr], totals, layout)
    {
      ClampedMeans(totals, enabled);
      if !registered {
        return EInval;
      }
      stored := totals;
      var t := Clamped(totals, enabled);
      if NoVote(t) {
        curr := 0;
        return Ok;
      }
      if layout.paths == 0 || layout.paths > MAX_PATHS {
        return EInval;
      }
      if RtPaths(layout) == 0 || layout.usecases == 1 {
        assert !Divisible(layout);
        return Fault;
      }
      RotationLeaves(curr, layout.usecases);
      var quotas := Quotas(t);
      var idx := NextUsecase(curr, layout.usecases);
      var row := table[idx];
      for i := 0 to layout.paths
        invariant |row| == layout.paths && forall j :: 0 <= j < i ==> row[j] == quotas[j]
      {
        row := row[i := quotas[i]];
      }
      assert t == Totals(Vector(totals.rt.ab, t.rt.ib), totals.nrt);
      hide PathVote, SharedOut;
      if Usable(layout) {
        RowSharedOut(row, t, layout);
      }
      assert Peak(totals.rt.ib, t.rt.ib);
      table := table[idx := row];
      curr := idx;
      return Ok;
    }

    /** `sde_power_data_bus_update`: the stored totals are voted again, or withdrawn. */
    method SwitchBus(enable: bool) returns (rc: Rc)
      requires Valid()
      modifies this
      ensures Valid() && enabled == enable && stored == old(stored) && registered == old(registered)
      ensures registered && !enable ==> rc == Ok && curr == 0 && table == old(table)
      ensures registered && enable && rc == Ok ==> 0 < curr && Voted(table[curr], stored, layout)
      ensures !registered ==> rc == Ok && curr == old(curr) && table == old(table)
    {
      enabled := enable;
      rc := Ok;
      if registered {
        rc := SetQuota(stored);
      }
    }

    /** The loops that fill the local quota arrays. */
    method Quotas(t: Totals) returns (q: seq<Vector>)
      requires Accepted(layout) && Divisible(layout)
      ensures |q| == layout.paths && forall i :: 0 <= i < |q| ==> q[i] == PathVote(t, layout, i)
    {
      hide Div64, Add64;
      var rtPaths := RtPaths(layout);
      q := [];
      if layout.nrt > 0 {
        for i := 0 to layout.paths
          invariant |q| == i && forall j :: 0 <= j < i ==> q[j] == PathVote(t, layout, j)
        {
          if i < rtPaths {
            q := q + [Vector(Div64(t.rt.ab, rtPaths), Div64(t.rt.ib, rtPaths))];
          } else {
            q := q + [Vector(Div64(t.nrt.ab, layout.nrt), Div64(t.nrt.ib, layout.nrt))];
          }
        }
      } else {
        q := [Vector(Div64(Add64(t.rt.ab, t.nrt.ab), layout.paths), Div64(Add64(t.rt.ib, t.nrt.ib), layout.paths))];
        for i := 1 to layout.paths
          invariant |q| == i && forall j :: 0 <= j < i ==> q[j] == PathVote(t, layout, j)
        {
          q := q + [q[0]];
        }
      }
    }
  }

  function PathVote(t: Totals, l: Layout, path: nat): Vector
    requires Accepted(l) && Divisible(l)
  {
    Vector(Share(t.rt.ab, t.nrt.ab, l, path), Share(t.rt.ib, t.nrt.ib, l, path))
  }

  /** The client-list loop of `sde_power_data_bus_set_quota`. */
  method AddUp(ds: seq<Demand>) returns (t: Totals)
    ensures t == Aggregate(ds)
  {
    t := Totals(Vector(0, 0), Vector(0, 0));
    for i := 0 to |ds|
      invariant t == Aggregate(ds[..i])
    {
      assert ds[..i + 1][..i] == ds[..i];
      var d := ds[i];
      t := t.(nrt := Vector(Add64(t.nrt.ab, d.nrt.ab), Add64(t.nrt.ib, d.nrt.ib)));
      t := t.(rt := Vector(Add64(t.rt.ab, d.rt.ab), Max64(t.rt.ib, d.rt.ib)));
    }
    assert ds[..|ds|] == ds;
  }
}
