/**
 The in-place rewiring of CRTC primary planes done after a lease has been parsed
 (msm-lease/msm_lease_drv.c, `msm_lease_fixup_crtc_primary`).

 CRTCs and planes are named by their position in the device lists. A CRTC's `primary` pointer
 and a plane's legacy `crtc` pointer are indices, with `Null` for the null pointer.
 */
module LeaseWiring {

  const Null := -1

  datatype Wiring = Wiring(
    primary: seq<int>,      // crtc->primary
    isPrimary: seq<bool>,   // plane->type is PRIMARY (otherwise OVERLAY)
    planeCrtc: seq<int>,    // plane->crtc
    numOverlay: int)        // mode_config.num_overlay_plane

  function CountOverlay(isPrimary: seq<bool>): nat {
    if isPrimary == [] then 0
    else CountOverlay(isPrimary[..|isPrimary| - 1]) + if isPrimary[|isPrimary| - 1] then 0 else 1
  }

  ghost predicate Owned(w: Wiring, p: int) {
    p in w.primary
  }

  /** `crtc->primary` is injective, points at PRIMARY planes only, and reaches every PRIMARY plane. */
  ghost predicate Bijection(w: Wiring) {
    && (forall c :: 0 <= c < |w.primary| && w.primary[c] != Null ==>
          0 <= w.primary[c] < |w.isPrimary| && w.isPrimary[w.primary[c]])
    && (forall c, d :: 0 <= c < d < |w.primary| && w.primary[c] != Null ==> w.primary[c] != w.primary[d])
    && (forall p {:trigger Owned(w, p)} :: 0 <= p < |w.isPrimary| && w.isPrimary[p] ==> Owned(w, p))
  }

  ghost predicate Consistent(w: Wiring) {
    && |w.planeCrtc| == |w.isPrimary|
    && Bijection(w)
    && w.numOverlay == CountOverlay(w.isPrimary)
  }

  /** Every plane that is some CRTC's primary points back at that CRTC. */
  ghost predicate BackPointers(w: Wiring) {
    forall c :: 0 <= c < |w.primary| && 0 <= w.primary[c] < |w.planeCrtc| ==> w.planeCrtc[w.primary[c]] == c
  }

  predicate Indices(s: seq<int>, bound: nat) {
    forall i :: 0 <= i < |s| ==> 0 <= s[i] < bound
  }

  ghost predicate Distinct<T>(s: seq<T>) {
    forall i, j :: 0 <= i < j < |s| ==> s[i] != s[j]
  }

  /** The first position of `x` in `s`, or `Null`. */
  function FirstAt<T(==)>(s: seq<T>, x: T): (r: int)
    ensures r == Null ==> x !in s
    ensures r != Null ==> 0 <= r < |s| && s[r] == x && x !in s[..r]
  {
    if s == [] then Null
    else
      var r := FirstAt(s[..|s| - 1], x);
      if r != Null then r else if s[|s| - 1] == x then |s| - 1 else Null
  }

  // ---------------------------------------------------------------- the three passes

  function ResetPlane(w: Wiring, p: int): Wiring
    requires 0 <= p < |w.isPrimary| == |w.planeCrtc|
  {
    if !w.isPrimary[p] then w
    else
      var c := FirstAt(w.primary, p);
      var w1 := if c == Null then w else w.(primary := w.primary[c := Null], planeCrtc := w.planeCrtc[p := Null]);
      w1.(isPrimary := w1.isPrimary[p := false], numOverlay := w1.numOverlay + 1)
  }

  function ResetPlanes(w: Wiring, ps: seq<int>): (r: Wiring)
    requires |w.isPrimary| == |w.planeCrtc| && Indices(ps, |w.isPrimary|)
    ensures |r.primary| == |w.primary| && |r.isPrimary| == |r.planeCrtc| == |w.isPrimary|
  {
    if ps == [] then w else ResetPlane(ResetPlanes(w, ps[..|ps| - 1]), ps[|ps| - 1])
  }

  function SetPrimary(w: Wiring, c: int, p: int): Wiring
    requires 0 <= c < |w.primary| && 0 <= p < |w.isPrimary| == |w.planeCrtc|
  {
    var prev := w.primary[c];
    var w1 := if 0 <= prev < |w.isPrimary|  // not the null pointer
              then w.(isPrimary := w.isPrimary[prev := false], numOverlay := w.numOverlay + 1)
              else w;
    Wiring(w1.primary[c := p], w1.isPrimary[p := true], w1.planeCrtc[p := c], w1.numOverlay - 1)
  }

  function SetPrimaries(w: Wiring, cs: seq<int>, ps: seq<int>, n: nat): (r: Wiring)
    requires |w.isPrimary| == |w.planeCrtc|
    requires n <= |cs| && n <= |ps| && Indices(cs, |w.primary|) && Indices(ps, |w.isPrimary|)
    ensures |r.primary| == |w.primary| && |r.isPrimary| == |r.planeCrtc| == |w.isPrimary|
  {
    if n == 0 then w else SetPrimary(SetPrimaries(w, cs, ps, n - 1), cs[n - 1], ps[n - 1])
  }

  function AssignOne(w: Wiring, c: int): Wiring
    requires 0 <= c < |w.primary| && |w.isPrimary| == |w.planeCrtc|
  {
    if w.primary[c] != Null then w
    else
      var p := FirstAt(w.isPrimary, false);
      if p == Null then w
      else Wiring(w.primary[c := p], w.isPrimary[p := true], w.planeCrtc[p := c], w.numOverlay - 1)
  }

  function AssignFree(w: Wiring, n: nat): (r: Wiring)
    requires n <= |w.primary| && |w.isPrimary| == |w.planeCrtc|
    ensures |r.primary| == |w.primary| && |r.isPrimary| == |r.planeCrtc| == |w.isPrimary|
  {
    if n == 0 then w else AssignOne(AssignFree(w, n - 1), n - 1)
  }

  /** All three passes for the leased CRTCs `cs` and planes `ps`. */
  function Rewire(w: Wiring, cs: seq<int>, ps: seq<int>): (r: Wiring)
    requires |w.isPrimary| == |w.planeCrtc| && |cs| <= |ps|
    requires Indices(cs, |w.primary|) && Indices(ps, |w.isPrimary|)
    ensures |r.primary| == |w.primary| && |r.isPrimary| == |r.planeCrtc| == |w.isPrimary|
  {
    AssignFree(SetPrimaries(ResetPlanes(w, ps), cs, ps, |cs|), |w.primary|)
  }

  // ---------------------------------------------------------------- what each pass keeps

  lemma {:induction false} CountUpdate(s: seq<bool>, i: int, b: bool)
    requires 0 <= i < |s|
    ensures CountOverlay(s[i := b]) == CountOverlay(s) + (if s[i] then 1 else 0) - (if b then 1 else 0)
  {
    var n := |s| - 1;
    if i == n {
      assert s[i := b][..n] == s[..n];
    } else {
      assert s[i := b][..n] == s[..n][i := b];
      CountUpdate(s[..n], i, b);
    }
  }

  /** Takes CRTC `c`'s primary plane away, as all passes see it: the plane becomes an overlay. */
  ghost function Detach(w: Wiring, c: int): Wiring
    requires 0 <= c < |w.primary| && 0 <= w.primary[c] < |w.isPrimary|
  {
    w.(primary := w.primary[c := Null], isPrimary := w.isPrimary[w.primary[c] := false],
       numOverlay := w.numOverlay + 1)
  }

  /** Makes overlay plane `p` the primary of a CRTC that has none. */
  ghost function Attach(w: Wiring, c: int, p: int): Wiring
    requires 0 <= c < |w.primary| && 0 <= p < |w.isPrimary| == |w.planeCrtc|
  {
    Wiring(w.primary[c := p], w.isPrimary[p := true], w.planeCrtc[p := c], w.numOverlay - 1)
  }

  lemma {:induction false} DetachKeeps(w: Wiring, c: int)
    requires Consistent(w) && 0 <= c < |w.primary| && w.primary[c] != Null
    ensures Consistent(Detach(w, c))
    ensures BackPointers(w) ==> BackPointers(Detach(w, c))
  {
    var r := Detach(w, c);
    CountUpdate(w.isPrimary, w.primary[c], false);
    forall q | 0 <= q < |r.isPrimary| && r.isPrimary[q] ensures Owned(r, q) {
      assert Owned(w, q);
      var d :| 0 <= d < |w.primary| && w.primary[d] == q;
      assert r.primary[d] == q;
    }
  }

  lemma {:induction false} AttachKeeps(w: Wiring, c: int, p: int)
    requires Consistent(w) && 0 <= c < |w.primary| && w.primary[c] == Null
    requires 0 <= p < |w.isPrimary| && !w.isPrimary[p]
    ensures Consistent(Attach(w, c, p))
    ensures BackPointers(w) ==> BackPointers(Attach(w, c, p))
  {
    var r := Attach(w, c, p);
    CountUpdate(w.isPrimary, p, true);
    forall q | 0 <= q < |r.isPrimary| && r.isPrimary[q] ensures Owned(r, q) {
      if q == p {
        assert r.primary[c] == q;
      } else {
        assert Owned(w, q);
        var d :| 0 <= d < |w.primary| && w.primary[d] == q;
        assert r.primary[d] == q;
      }
    }
  }

  lemma {:induction false} ResetPlaneKeeps(w: Wiring, p: int)
    requires Consistent(w) && 0 <= p < |w.isPrimary|
    ensures var r := ResetPlane(w, p);
            && Consistent(r) && |r.primary| == |w.primary|
            && r.isPrimary == w.isPrimary[p := false]
            && r.planeCrtc == (if w.isPrimary[p] then w.planeCrtc[p := Null] else w.planeCrtc)
            && (forall c :: 0 <= c < |w.primary| ==>
                  r.primary[c] == if w.primary[c] == p then Null else w.primary[c])
            && (BackPointers(w) ==> BackPointers(r))
  {
    var c := FirstAt(w.primary, p);
    if w.isPrimary[p] {
      assert Owned(w, p);
      var u := Detach(w, c);
      DetachKeeps(w, c);
      var r := u.(planeCrtc := u.planeCrtc[p := Null]);
      assert ResetPlane(w, p) == r;
      assert p !in u.primary;
      forall q | 0 <= q < |r.isPrimary| && r.isPrimary[q] ensures Owned(r, q) { assert Owned(u, q); }
    } else {
      assert w.isPrimary[p := false] == w.isPrimary;
      assert p !in w.primary;
    }
  }

  /** Pass 1: the leased planes, and no others, stop being PRIMARY and stop being anyone's primary. */
  lemma {:induction false} ResetPlanesEffect(w: Wiring, ps: seq<int>)
    requires Consistent(w) && Indices(ps, |w.isPrimary|)
    ensures var r := ResetPlanes(w, ps);
            && Consistent(r) && |r.primary| == |w.primary| && |r.isPrimary| == |w.isPrimary|
            && (forall q :: 0 <= q < |w.isPrimary| ==> r.isPrimary[q] == (w.isPrimary[q] && q !in ps))
            && (forall c :: 0 <= c < |w.primary| ==>
                  r.primary[c] == if w.primary[c] in ps then Null else w.primary[c])
            && (BackPointers(w) ==> BackPointers(r))
  {
    if ps != [] {
      var n := |ps| - 1;
      var u := ResetPlanes(w, ps[..n]);
      ResetPlanesEffect(w, ps[..n]);
      ResetPlaneKeeps(u, ps[n]);
      assert forall q :: q in ps <==> q in ps[..n] || q == ps[n];
    }
  }

  lemma {:induction false} SetPrimaryKeeps(w: Wiring, c: int, p: int)
    requires Consistent(w) && 0 <= c < |w.primary| && 0 <= p < |w.isPrimary| && !w.isPrimary[p]
    ensures var r := SetPrimary(w, c, p);
            && Consistent(r) && r.primary == w.primary[c := p] && |r.isPrimary| == |w.isPrimary|
            && (forall q :: 0 <= q < |w.isPrimary| && q != p && !w.isPrimary[q] ==> !r.isPrimary[q])
            && (BackPointers(w) ==> BackPointers(r))
  {
    if w.primary[c] == Null {
      AttachKeeps(w, c, p);
    } else {
      DetachKeeps(w, c);
      AttachKeeps(Detach(w, c), c, p);
      assert Detach(w, c).primary[c := p] == w.primary[c := p];
    }
  }

  /** What pass 2 has established after `n` rounds. */
  ghost predicate HandedOut(w: Wiring, r: Wiring, cs: seq<int>, ps: seq<int>, n: nat) {
    && n <= |cs| && n <= |ps| && Indices(cs, |w.primary|) && Indices(ps, |w.isPrimary|)
    && |r.primary| == |w.primary| && |r.isPrimary| == |w.isPrimary|
    && (forall j :: 0 <= j < n ==> r.primary[cs[j]] == ps[j])
    && (forall j :: n <= j < |ps| ==> !r.isPrimary[ps[j]])
    && (forall c :: 0 <= c < |w.primary| && c !in cs ==> r.primary[c] == w.primary[c])
  }

  ghost predicate Progress(w: Wiring, r: Wiring, cs: seq<int>, ps: seq<int>, n: nat) {
    Consistent(r) && HandedOut(w, r, cs, ps, n) && (BackPointers(w) ==> BackPointers(r))
  }

  lemma {:induction false} HandOutStep(w: Wiring, u: Wiring, cs: seq<int>, ps: seq<int>, n: nat)
    requires Progress(w, u, cs, ps, n) && n < |cs| && n < |ps| && Distinct(cs) && Distinct(ps)
    ensures 0 <= cs[n] < |u.primary| && 0 <= ps[n] < |u.isPrimary| == |u.planeCrtc|
    ensures Progress(w, SetPrimary(u, cs[n], ps[n]), cs, ps, n + 1)
  {
    SetPrimaryKeeps(u, cs[n], ps[n]);
  }

  lemma {:induction false} SetPrimariesProgress(w: Wiring, cs: seq<int>, ps: seq<int>, n: nat)
    requires |w.isPrimary| == |w.planeCrtc| && n <= |cs| && n <= |ps|
    requires Indices(cs, |w.primary|) && Indices(ps, |w.isPrimary|) && Distinct(cs) && Distinct(ps)
    requires Progress(w, w, cs, ps, 0)
    ensures Progress(w, SetPrimaries(w, cs, ps, n), cs, ps, n)
  {
    hide Progress, SetPrimary, Distinct;
    if n > 0 {
      SetPrimariesProgress(w, cs, ps, n - 1);
      HandOutStep(w, SetPrimaries(w, cs, ps, n - 1), cs, ps, n - 1);
    }
  }

  /** Pass 2: after `n` rounds the first `n` leased CRTCs have the first `n` leased planes. */
  lemma {:induction false} SetPrimariesEffect(w: Wiring, cs: seq<int>, ps: seq<int>, n: nat)
    requires Consistent(w) && n <= |cs| && n <= |ps|
    requires Indices(cs, |w.primary|) && Indices(ps, |w.isPrimary|) && Distinct(cs) && Distinct(ps)
    requires forall j :: 0 <= j < |ps| ==> !w.isPrimary[ps[j]]
    ensures Consistent(SetPrimaries(w, cs, ps, n)) && HandedOut(w, SetPrimaries(w, cs, ps, n), cs, ps, n)
    ensures BackPointers(w) ==> BackPointers(SetPrimaries(w, cs, ps, n))
  {
    assert |w.isPrimary| == |w.planeCrtc|;
    HandOutStart(w, cs, ps);
    hide Consistent, BackPointers, HandedOut, SetPrimaries;
    SetPrimariesProgress(w, cs, ps, n);
  }

  lemma {:induction false} HandOutStart(w: Wiring, cs: seq<int>, ps: seq<int>)
    requires Indices(cs, |w.primary|) && Indices(ps, |w.isPrimary|)
    requires forall j :: 0 <= j < |ps| ==> !w.isPrimary[ps[j]]
    ensures HandedOut(w, w, cs, ps, 0)
  {
  }

  lemma {:induction false} AssignOneKeeps(w: Wiring, c: int)
    requires Consistent(w) && 0 <= c < |w.primary|
    ensures var r := AssignOne(w, c);
            && Consistent(r) && |r.primary| == |w.primary| && |r.isPrimary| == |w.isPrimary|
            && (forall d :: 0 <= d < |w.primary| && (d != c || w.primary[d] != Null) ==>
                  r.primary[d] == w.primary[d])
            && (|w.isPrimary| >= |w.primary| ==> r.primary[c] != Null)
            && (BackPointers(w) ==> BackPointers(r))
  {
    var p := FirstAt(w.isPrimary, false);
    if w.primary[c] == Null && p != Null {
      AttachKeeps(w, c, p);
    }
    if w.primary[c] == Null && p == Null {
      forall q | 0 <= q < |w.isPrimary| ensures w.isPrimary[q] { assert w.isPrimary[q] in w.isPrimary; }
      AllPrimaryMeansFewerPlanes(w, c);
    }
  }

  /** The pigeonhole step: if every plane is taken and a CRTC has none, planes are fewer than CRTCs. */
  lemma {:induction false} AllPrimaryMeansFewerPlanes(w: Wiring, c: int)
    requires Bijection(w) && 0 <= c < |w.primary| && w.primary[c] == Null
    requires forall p :: 0 <= p < |w.isPrimary| ==> w.isPrimary[p]
    ensures |w.isPrimary| < |w.primary|
  {
    var owners := seq(|w.isPrimary|, p requires 0 <= p < |w.isPrimary| => FirstAt(w.primary, p));
    forall p | 0 <= p < |owners| ensures 0 <= owners[p] < |w.primary| && w.primary[owners[p]] == p {
      assert Owned(w, p);
    }
    DistinctBounded(owners + [c], |w.primary|);
  }

  lemma {:induction false} DistinctBounded(s: seq<int>, n: nat)
    requires Distinct(s) && Indices(s, n)
    ensures |s| <= n
  {
    if n > 0 {
      var k := FirstAt(s, n - 1);
      if k != Null {
        DistinctWithout(s, n, k);
        DistinctBounded(s[..k] + s[k + 1..], n - 1);
      } else {
        assert forall i :: 0 <= i < |s| ==> s[i] in s;
        DistinctBounded(s, n - 1);
      }
    }
  }

  lemma {:induction false} DistinctWithout(s: seq<int>, n: nat, k: int)
    requires Distinct(s) && Indices(s, n) && 0 <= k < |s| && s[k] == n - 1
    ensures Distinct(s[..k] + s[k + 1..]) && Indices(s[..k] + s[k + 1..], n - 1)
  {
    var rest := s[..k] + s[k + 1..];
    assert forall i :: 0 <= i < |rest| ==> rest[i] == s[if i < k then i else i + 1];
  }

  /** What pass 3 has established after visiting `n` CRTCs. */
  ghost predicate Settled(w: Wiring, r: Wiring, n: nat) {
    && |r.primary| == |w.primary| && |r.isPrimary| == |w.isPrimary| && n <= |w.primary|
    && (forall c :: 0 <= c < |w.primary| && w.primary[c] != Null ==> r.primary[c] == w.primary[c])
    && (|w.isPrimary| >= |w.primary| ==> forall c :: 0 <= c < n ==> r.primary[c] != Null)
  }

  lemma {:induction false} SettleStep(w: Wiring, u: Wiring, n: nat)
    requires Consistent(u) && Settled(w, u, n) && n < |w.primary|
    ensures var r := AssignOne(u, n);
            Consistent(r) && Settled(w, r, n + 1) && (BackPointers(u) ==> BackPointers(r))
  {
    AssignOneKeeps(u, n);
  }

  /** Pass 3: CRTCs that have a primary keep it; with enough planes the others get one. */
  lemma {:induction false} AssignFreeEffect(w: Wiring, n: nat)
    requires Consistent(w) && n <= |w.primary|
    ensures Consistent(AssignFree(w, n)) && Settled(w, AssignFree(w, n), n)
    ensures BackPointers(w) ==> BackPointers(AssignFree(w, n))
  {
    hide AssignOne, Bijection, CountOverlay;
    if n > 0 {
      AssignFreeEffect(w, n - 1);
      SettleStep(w, AssignFree(w, n - 1), n - 1);
    }
  }

  ghost predicate PointersReset(w: Wiring, r: Wiring, ps: seq<int>) {
    && |r.isPrimary| == |w.isPrimary| == |r.planeCrtc| == |w.planeCrtc|
    && (forall q :: 0 <= q < |w.isPrimary| ==> r.isPrimary[q] == (w.isPrimary[q] && q !in ps))
    && (forall q :: 0 <= q < |w.isPrimary| ==>
          r.planeCrtc[q] == if w.isPrimary[q] && q in ps then Null else w.planeCrtc[q])
  }

  lemma {:induction false} PointersStep(w: Wiring, u: Wiring, ps: seq<int>, p: int)
    requires Consistent(u) && PointersReset(w, u, ps) && 0 <= p < |w.isPrimary|
    ensures PointersReset(w, ResetPlane(u, p), ps + [p])
  {
    ResetPlaneKeeps(u, p);
    hide Consistent, BackPointers, ResetPlane;
    assert forall q :: q in ps + [p] <==> q in ps || q == p;
  }

  /** The legacy pointers after pass 1: a leased plane that was a primary points nowhere, the others as before. */
  lemma {:induction false} ResetPointers(w: Wiring, ps: seq<int>)
    requires Consistent(w) && Indices(ps, |w.isPrimary|)
    ensures PointersReset(w, ResetPlanes(w, ps), ps)
  {
    if ps != [] {
      var n := |ps| - 1;
      ResetPointers(w, ps[..n]);
      ResetPlanesEffect(w, ps[..n]);
      hide PointersReset, Consistent, BackPointers, ResetPlane;
      PointersStep(w, ResetPlanes(w, ps[..n]), ps[..n], ps[n]);
      assert ps[..n] + [ps[n]] == ps;
    }
  }

  /** The legacy pointers after pass 2: the j-th plane points at the j-th CRTC, the others as before. */
  lemma {:induction false} SetPointers(w: Wiring, cs: seq<int>, ps: seq<int>, n: nat)
    requires |w.isPrimary| == |w.planeCrtc| && n <= |cs| && n <= |ps| && Distinct(ps)
    requires Indices(cs, |w.primary|) && Indices(ps, |w.isPrimary|)
    ensures forall j :: 0 <= j < n ==> SetPrimaries(w, cs, ps, n).planeCrtc[ps[j]] == cs[j]
    ensures forall q :: 0 <= q < |w.isPrimary| && q !in ps[..n] ==> SetPrimaries(w, cs, ps, n).planeCrtc[q] == w.planeCrtc[q]
  {
    if n > 0 {
      SetPointers(w, cs, ps, n - 1);
      var u, r := SetPrimaries(w, cs, ps, n - 1), SetPrimaries(w, cs, ps, n);
      assert r.planeCrtc == u.planeCrtc[ps[n - 1] := cs[n - 1]];
      assert ps[..n] == ps[..n - 1] + [ps[n - 1]];
    }
  }

  /** One CRTC of pass 3: without a primary it gets the first overlay plane, which then points back at it. */
  lemma {:induction false} AssignOnePicks(w: Wiring, c: int)
    requires 0 <= c < |w.primary| && |w.isPrimary| == |w.planeCrtc|
    ensures var r := AssignOne(w, c);
            if w.primary[c] == Null && exists q :: 0 <= q < |w.isPrimary| && !w.isPrimary[q] then
              && 0 <= r.primary[c] < |w.isPrimary| && !w.isPrimary[r.primary[c]]
              && (forall q :: 0 <= q < r.primary[c] ==> w.isPrimary[q])
              && r.primary == w.primary[c := r.primary[c]] && r.isPrimary == w.isPrimary[r.primary[c] := true]
              && r.planeCrtc == w.planeCrtc[r.primary[c] := c]
            else r == w
  {
    var p := FirstAt(w.isPrimary, false);
    if p == Null {
      forall q | 0 <= q < |w.isPrimary| ensures w.isPrimary[q] { assert w.isPrimary[q] in w.isPrimary; }
    } else {
      forall q | 0 <= q < p ensures w.isPrimary[q] { assert w.isPrimary[q] == w.isPrimary[..p][q]; }
    }
  }

  /** The plane CRTC `c` got in pass 3. */
  ghost predicate Got(w: Wiring, r: Wiring, c: int)
    requires 0 <= c < |w.primary| == |r.primary|
  {
    w.primary[c] == Null && r.primary[c] != Null
  }

  /**
   Of the first `n` CRTCs, earlier ones got lower planes, no plane left over is lower than one handed
   out, and a CRTC went without only when none was left.
   */
  ghost predicate LowestFirst(w: Wiring, r: Wiring, n: nat) {
    && |r.primary| == |w.primary| && |r.isPrimary| == |w.isPrimary| && n <= |w.primary|
    && (forall c :: n <= c < |w.primary| ==> r.primary[c] == w.primary[c])
    && (forall c, q :: 0 <= c < n && Got(w, r, c) && 0 <= q < |r.isPrimary| && !r.isPrimary[q] ==> r.primary[c] < q)
    && (forall c, d :: 0 <= c < d < n && Got(w, r, c) && Got(w, r, d) ==> r.primary[c] < r.primary[d])
    && (forall c, d :: 0 <= c < d < n && w.primary[c] == Null && Got(w, r, d) ==> Got(w, r, c))
    && (forall c, q :: 0 <= c < n && w.primary[c] == Null && r.primary[c] == Null && 0 <= q < |r.isPrimary| ==> r.isPrimary[q])
  }

  lemma {:induction false} LowestStep(w: Wiring, u: Wiring, n: nat)
    requires |u.isPrimary| == |u.planeCrtc| && LowestFirst(w, u, n) && n < |w.primary|
    ensures LowestFirst(w, AssignOne(u, n), n + 1)
  {
    AssignOnePicks(u, n);
    hide AssignOne;
    var r := AssignOne(u, n);
    assert forall c :: 0 <= c < n ==> r.primary[c] == u.primary[c];
  }

  /** Pass 3 serves the CRTCs in list order with the lowest overlay planes. */
  lemma {:induction false} AssignFreeLowest(w: Wiring, n: nat)
    requires |w.isPrimary| == |w.planeCrtc| && n <= |w.primary|
    ensures LowestFirst(w, AssignFree(w, n), n)
  {
    hide AssignOne, LowestFirst;
    if n == 0 {
      LowestStart(w);
    } else {
      AssignFreeLowest(w, n - 1);
      LowestStep(w, AssignFree(w, n - 1), n - 1);
    }
  }

  lemma {:induction false} LowestStart(w: Wiring)
    ensures LowestFirst(w, w, 0)
  {
  }

  /** With fewer planes than CRTCs an injective wiring must leave some CRTC without a primary. */
  lemma {:induction false} TooFewPlanes(w: Wiring)
    requires Bijection(w) && |w.isPrimary| < |w.primary|
    ensures Null in w.primary
  {
    if Null !in w.primary {
      forall c | 0 <= c < |w.primary| ensures w.primary[c] != Null { assert w.primary[c] in w.primary; }
      DistinctBounded(w.primary, |w.isPrimary|);
    }
  }

  // ---------------------------------------------------------------- the whole rewiring

  /**
   The rewiring keeps the bijection and the overlay counter, gives the i-th leased CRTC the i-th
   leased plane, and leaves no CRTC without a primary exactly when there are enough planes.
   */
  lemma {:induction false} RewireTheorem(w: Wiring, cs: seq<int>, ps: seq<int>)
    requires Consistent(w) && Indices(cs, |w.primary|) && Indices(ps, |w.isPrimary|)
    requires Distinct(cs) && Distinct(ps) && |cs| <= |ps|
    ensures var r := Rewire(w, cs, ps);
            && |r.primary| == |w.primary| && |r.isPrimary| == |w.isPrimary|
            && Consistent(r)
            && (BackPointers(w) ==> BackPointers(r))
            && (forall i :: 0 <= i < |cs| ==> r.primary[cs[i]] == ps[i])
            && (Null !in r.primary <==> |w.isPrimary| >= |w.primary|)
  {
    var w1 := ResetPlanes(w, ps);
    ResetPlanesEffect(w, ps);
    var w2 := SetPrimaries(w1, cs, ps, |cs|);
    SetPrimariesEffect(w1, cs, ps, |cs|);
    AssignFreeEffect(w2, |w.primary|);
    var r := AssignFree(w2, |w.primary|);
    if |w.isPrimary| < |w.primary| {
      TooFewPlanes(r);
    }
  }

  /** A CRTC outside the lease whose primary is also outside the lease is left alone. */
  lemma {:induction false} RewireLeavesOthers(w: Wiring, cs: seq<int>, ps: seq<int>, c: int)
    requires Consistent(w) && Indices(cs, |w.primary|) && Indices(ps, |w.isPrimary|)
    requires Distinct(cs) && Distinct(ps) && |cs| <= |ps|
    requires 0 <= c < |w.primary| && c !in cs && w.primary[c] != Null && w.primary[c] !in ps
    ensures Rewire(w, cs, ps).primary[c] == w.primary[c]
  {
    var w1 := ResetPlanes(w, ps);
    ResetPlanesEffect(w, ps);
    SetPrimariesEffect(w1, cs, ps, |cs|);
    AssignFreeEffect(SetPrimaries(w1, cs, ps, |cs|), |w.primary|);
  }

  // ---------------------------------------------------------------- the driver's loops

  /** The part of `drm_device` the lease driver rewires in place. */
  class ModeConfig {
    var primary: seq<int>
    var isPrimary: seq<bool>
    var planeCrtc: seq<int>
    var numOverlay: int

    ghost function View(): Wiring
      reads this
    {
      Wiring(primary, isPrimary, planeCrtc, numOverlay)
    }

    constructor (w: Wiring)
      ensures View() == w
    {
      primary, isPrimary, planeCrtc, numOverlay := w.primary, w.isPrimary, w.planeCrtc, w.numOverlay;
    }

    /** One round of pass 1: find the CRTC using `p`, if any, and clear both pointers. */
    method ResetLeasedPlane(p: int)
      requires 0 <= p < |isPrimary| == |planeCrtc|
      modifies this
      ensures View() == ResetPlane(old(View()), p)
    {
      if isPrimary[p] {
        var c := 0;
        while c < |primary| && primary[c] != p
          invariant 0 <= c <= |primary| && p !in primary[..c]
        {
          c := c + 1;
        }
        if c < |primary| {
          assert FirstAt(primary, p) == c;
          primary := primary[c := Null];
          planeCrtc := planeCrtc[p := Null];
        } else {
          assert primary == primary[..c];
        }
        isPrimary := isPrimary[p := false];
        numOverlay := numOverlay + 1;
      }
    }

    method ResetLeasedPlanes(planes: array<int>, planeCount: nat)
      requires planeCount <= planes.Length
      requires |isPrimary| == |planeCrtc| && Indices(planes[..planeCount], |isPrimary|)
      modifies this
      ensures View() == ResetPlanes(old(View()), planes[..planeCount])
    {
      ghost var w := View();
      ghost var ps := planes[..planeCount];
      for i := 0 to planeCount
        invariant View() == ResetPlanes(w, ps[..i])
      {
        assert ps[..i + 1][..i] == ps[..i] && ps[i] == planes[i];
        ResetLeasedPlane(planes[i]);
      }
      assert ps[..planeCount] == ps;
    }

    /**
     Pass 2; false when it comes to a plane slot that was never filled, after as many rounds as there
     are planes.
     */
    method SetLeasedPrimaries(crtcs: array<int>, crtcCount: nat, planes: array<int>, planeCount: nat)
      returns (defined: bool)
      requires crtcCount <= crtcs.Length && planeCount <= planes.Length && |isPrimary| == |planeCrtc|
      requires Indices(crtcs[..crtcCount], |primary|) && Indices(planes[..planeCount], |isPrimary|)
      modifies this
      ensures defined <==> crtcCount <= planeCount
      ensures View() == SetPrimaries(old(View()), crtcs[..crtcCount], planes[..planeCount],
                                     if defined then crtcCount else planeCount)
    {
      ghost var w := View();
      ghost var cs, ps := crtcs[..crtcCount], planes[..planeCount];
      for i := 0 to crtcCount
        invariant i <= planeCount && View() == SetPrimaries(w, cs, ps, i)
      {
        hide Indices;
        if i >= planeCount {
          return false;
        }
        var c, p := crtcs[i], planes[i];
        assert c == cs[i] && p == ps[i];
        if 0 <= primary[c] < |isPrimary| {
          isPrimary := isPrimary[primary[c] := false];
          numOverlay := numOverlay + 1;
        }
        primary := primary[c := p];
        planeCrtc := planeCrtc[p := c];
        isPrimary := isPrimary[p := true];
        numOverlay := numOverlay - 1;
      }
      return true;
    }

    method AssignResetCrtcs()
      requires |isPrimary| == |planeCrtc|
      modifies this
      ensures View() == AssignFree(old(View()), |old(primary)|)
    {
      ghost var w := View();
      var n := |primary|;
      for c := 0 to n
        invariant |primary| == n && View() == AssignFree(w, c)
      {
        if primary[c] == Null {
          var p := 0;
          while p < |isPrimary| && isPrimary[p]
            invariant 0 <= p <= |isPrimary| && false !in isPrimary[..p]
          {
            p := p + 1;
          }
          if p < |isPrimary| {
            assert FirstAt(isPrimary, false) == p;
            primary := primary[c := p];
            isPrimary := isPrimary[p := true];
            planeCrtc := planeCrtc[p := c];
            numOverlay := numOverlay - 1;
          } else {
            assert isPrimary == isPrimary[..p];
          }
        }
      }
    }
  }
}
