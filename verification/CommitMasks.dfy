/**
 The pending CRTC and plane masks of the atomic commit code (msm/msm_atomic.c), the critical sections
 that change them, and the loops that build masks and pick a display thread.
 */
module CommitMasks {

  // ---------------------------------------------------------------- masks

  /** A 32-bit mask as the set of its bit positions: `|`, `& ~` and `&` are `+`, `-` and `*`. */
  type Mask = set<nat>

  function OrAll(ms: seq<Mask>): Mask {
    if ms == [] then {} else OrAll(ms[..|ms| - 1]) + ms[|ms| - 1]
  }

  ghost predicate PairwiseApart(ms: seq<Mask>) {
    forall i, j :: 0 <= i < j < |ms| ==> ms[i] !! ms[j]
  }

  lemma {:induction false} OrAdd(ms: seq<Mask>, i: nat, m: Mask)
    requires i < |ms| && ms[i] == {}
    ensures OrAll(ms[i := m]) == OrAll(ms) + m
  {
    var n := |ms| - 1;
    if i == n {
      assert ms[i := m][..n] == ms[..n];
    } else {
      assert ms[i := m][..n] == ms[..n][i := m];
      OrAdd(ms[..n], i, m);
    }
  }

  /** A mask that meets no member meets no bit of the union, and the other way round. */
  lemma {:induction false} OrMeets(ms: seq<Mask>, m: Mask)
    ensures OrAll(ms) !! m <==> forall j :: 0 <= j < |ms| ==> ms[j] !! m
  {
    if ms != [] {
      var n := |ms| - 1;
      OrMeets(ms[..n], m);
      assert forall j :: 0 <= j < n ==> ms[..n][j] == ms[j];
    }
  }

  /** Clearing one in-flight mask leaves exactly the union of the others. */
  lemma {:induction false} OrRemove(ms: seq<Mask>, i: nat)
    requires i < |ms| && PairwiseApart(ms)
    ensures OrAll(ms[i := {}]) == OrAll(ms) - ms[i]
  {
    var n := |ms| - 1;
    if i == n {
      assert ms[i := {}][..n] == ms[..n];
      OrMeets(ms[..n], ms[n]);
    } else {
      assert ms[i := {}][..n] == ms[..n][i := {}];
      OrRemove(ms[..n], i);
    }
  }

  lemma {:induction false} OrAppendNone(ms: seq<Mask>)
    ensures OrAll(ms + [{}]) == OrAll(ms)
  {
    assert (ms + [{}])[..|ms|] == ms;
  }

  // ---------------------------------------------------------------- the driver's critical sections and loops

  datatype StartResult = StartOk | MustWait | Interrupted

  /** What one started commit blocks. */
  datatype Claim = Claim(crtcs: Mask, planes: Mask)

  function CrtcClaims(cs: seq<Claim>): seq<Mask> { seq(|cs|, i requires 0 <= i < |cs| => cs[i].crtcs) }

  function PlaneClaims(cs: seq<Claim>): seq<Mask> { seq(|cs|, i requires 0 <= i < |cs| => cs[i].planes) }

  ghost predicate Conflicts(a: Claim, b: Claim) { !(a.crtcs !! b.crtcs) || !(a.planes !! b.planes) }

  /** The pending masks of `struct msm_drm_private`, under their spin lock. */
  class PendingMasks {
    var crtcs: Mask
    var planes: Mask
    ghost var claims: seq<Claim>   // of the commits in flight

    /** The masks are exactly the unions of pairwise disjoint claims. */
    ghost predicate Valid()
      reads this
    {
      && PairwiseApart(CrtcClaims(claims)) && crtcs == OrAll(CrtcClaims(claims))
      && PairwiseApart(PlaneClaims(claims)) && planes == OrAll(PlaneClaims(claims))
    }

    constructor ()
      ensures Valid() && claims == []
    {
      crtcs, planes, claims := {}, {}, [];
    }

    /** One evaluation of the wait condition in `start_atomic`, or an interruption of the wait. */
    method StartAtomic(c: Claim, interrupted: bool) returns (r: StartResult)
      requires Valid()
      modifies this
      ensures Valid()
      ensures r == StartOk <==> forall k :: 0 <= k < |old(claims)| ==> !Conflicts(old(claims)[k], c)
      ensures r == Interrupted ==> interrupted
      ensures claims == if r == StartOk then old(claims) + [c] else old(claims)
      ensures r != StartOk ==> crtcs == old(crtcs) && planes == old(planes)
    {
      OrMeets(CrtcClaims(claims), c.crtcs);
      OrMeets(PlaneClaims(claims), c.planes);
      assert crtcs !! c.crtcs <==> forall k :: 0 <= k < |claims| ==> claims[k].crtcs !! c.crtcs by {
        assert forall k :: 0 <= k < |claims| ==> CrtcClaims(claims)[k] == claims[k].crtcs;
      }
      assert planes !! c.planes <==> forall k :: 0 <= k < |claims| ==> claims[k].planes !! c.planes by {
        assert forall k :: 0 <= k < |claims| ==> PlaneClaims(claims)[k] == claims[k].planes;
      }
      if crtcs !! c.crtcs && planes !! c.planes {
        ClaimMore(claims, c);
        OrMore(CrtcClaims(claims), c.crtcs);
        OrMore(PlaneClaims(claims), c.planes);
        crtcs := crtcs + c.crtcs;
        planes := planes + c.planes;
        claims := claims + [c];
        return StartOk;
      }
      return if interrupted then Interrupted else MustWait;
    }

    /** Ends the `k`-th claim: afterwards exactly the other commits' bits are pending. */
    method EndAtomic(c: Claim, ghost k: nat)
      requires Valid() && k < |claims| && claims[k] == c
      modifies this
      ensures Valid() && claims == old(claims)[..k] + old(claims)[k + 1..]
      ensures crtcs !! c.crtcs && planes !! c.planes
    {
      ClaimLess(claims, k);
      OrLess(CrtcClaims(claims), k);
      OrLess(PlaneClaims(claims), k);
      crtcs := crtcs - c.crtcs;
      planes := planes - c.planes;
      claims := claims[..k] + claims[k + 1..];
    }
  }

  lemma {:induction false} ClaimMore(cs: seq<Claim>, c: Claim)
    ensures CrtcClaims(cs + [c]) == CrtcClaims(cs) + [c.crtcs]
    ensures PlaneClaims(cs + [c]) == PlaneClaims(cs) + [c.planes]
  {
  }

  lemma {:induction false} ClaimLess(cs: seq<Claim>, k: nat)
    requires k < |cs|
    ensures CrtcClaims(cs[..k] + cs[k + 1..]) == CrtcClaims(cs)[..k] + CrtcClaims(cs)[k + 1..]
    ensures PlaneClaims(cs[..k] + cs[k + 1..]) == PlaneClaims(cs)[..k] + PlaneClaims(cs)[k + 1..]
  {
  }

  lemma {:induction false} OrMore(ms: seq<Mask>, m: Mask)
    requires PairwiseApart(ms) && OrAll(ms) !! m
    ensures OrAll(ms + [m]) == OrAll(ms) + m && PairwiseApart(ms + [m])
  {
    assert (ms + [m])[..|ms|] == ms;
    OrMeets(ms, m);
  }

  /** Dropping one of pairwise disjoint masks leaves the union without it. */
  lemma {:induction false} OrLess(ms: seq<Mask>, k: nat)
    requires k < |ms| && PairwiseApart(ms)
    ensures OrAll(ms[..k] + ms[k + 1..]) == OrAll(ms) - ms[k] && PairwiseApart(ms[..k] + ms[k + 1..])
  {
    var n, rest := |ms| - 1, ms[..k] + ms[k + 1..];
    assert forall i :: 0 <= i < |rest| ==> rest[i] == ms[if i < k then i else i + 1];
    if k == n {
      assert rest == ms[..n];
      OrMeets(ms[..n], ms[n]);
    } else {
      OrLess(ms[..n], k);
      assert rest[..|rest| - 1] == ms[..n][..k] + ms[..n][k + 1..];
      assert ms[n] !! ms[k];
    }
  }

  /** The loops of `msm_atomic_commit` that turn the CRTCs and planes of a state into masks. */
  method BuildMask(indices: seq<nat>) returns (m: Mask)
    ensures forall b :: b in m <==> b in indices
  {
    m := {};
    for i := 0 to |indices|
      invariant forall b :: b in m <==> b in indices[..i]
    {
      m := m + {indices[i]};
    }
    assert indices[..|indices|] == indices;
  }

  datatype Thread = Thread(crtcId: int, alive: bool)

  /** The first display thread entry for one of the CRTCs, in the order of the CRTCs, or -1. */
  ghost predicate FirstEntry(crtcIds: seq<int>, threads: seq<Thread>, k: int, j: int) {
    && 0 <= k < |crtcIds| && 0 <= j < |threads| && threads[j].crtcId == crtcIds[k]
    && (forall j' :: 0 <= j' < j ==> threads[j'].crtcId != crtcIds[k])
    && (forall k', j' :: 0 <= k' < k && 0 <= j' < |threads| ==> threads[j'].crtcId != crtcIds[k'])
  }

  /**
   The nested loop of `msm_atomic_commit_dispatch`: the work is queued at most once, on the thread
   of the first CRTC that has an entry, and not at all when that entry has no thread.
   */
  method Dispatch(crtcIds: seq<int>, threads: seq<Thread>) returns (queuedOn: seq<int>)
    ensures |queuedOn| <= 1
    ensures queuedOn == [] <==>
            !exists k, j :: FirstEntry(crtcIds, threads, k, j) && threads[j].alive
    ensures queuedOn != [] ==> exists k :: FirstEntry(crtcIds, threads, k, queuedOn[0]) && threads[queuedOn[0]].alive
  {
    queuedOn := [];
    for k := 0 to |crtcIds|
      invariant queuedOn == []
      invariant forall k', j' :: 0 <= k' < k && 0 <= j' < |threads| ==> threads[j'].crtcId != crtcIds[k']
    {
      var j := 0;
      while j < |threads| && threads[j].crtcId != crtcIds[k]
        invariant 0 <= j <= |threads|
        invariant forall j' :: 0 <= j' < j ==> threads[j'].crtcId != crtcIds[k]
      {
        j := j + 1;
      }
      if j < |threads| {
        assert FirstEntry(crtcIds, threads, k, j);
        FirstEntryUnique(crtcIds, threads, k, j);
        if threads[j].alive {
          queuedOn := queuedOn + [j];
          assert queuedOn[0] == j && FirstEntry(crtcIds, threads, k, queuedOn[0]);
        }
        return;
      }
    }
  }

  lemma {:induction false} FirstEntryUnique(crtcIds: seq<int>, threads: seq<Thread>, k: int, j: int)
    requires FirstEntry(crtcIds, threads, k, j)
    ensures forall k', j' :: FirstEntry(crtcIds, threads, k', j') ==> k' == k && j' == j
  {
    forall k', j' | FirstEntry(crtcIds, threads, k', j') ensures k' == k && j' == j {
      assert threads[j].crtcId == crtcIds[k] && threads[j'].crtcId == crtcIds[k'];
    }
  }
}
