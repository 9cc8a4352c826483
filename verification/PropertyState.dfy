/**
 The DRM property helper (msm/msm_prop.c): the rotating property lookup and the list of dirty
 properties, against a reference that only looks at the history of marks and pops.
 */
module PropertyState {

  const EINVAL := 22
  const EAGAIN := 11

  // ---------------------------------------------------------------- reference: history of marks and pops

  datatype Op = Mark(i: nat) | Popped(i: nat)

  /** When property `i` became dirty and has stayed so since, or -1 when it is clean. */
  function DirtySince(h: seq<Op>, i: nat): (t: int)
    ensures -1 <= t < |h|
  {
    if h == [] then -1
    else
      var n := |h| - 1;
      var before := DirtySince(h[..n], i);
      if h[n] == Popped(i) then -1 else if h[n] == Mark(i) && before < 0 then n else before
  }

  /** The same in words: the first mark of `i` after its last pop. */
  ghost predicate FirstMarkSincePop(h: seq<Op>, i: nat, t: int) {
    && 0 <= t < |h| && h[t] == Mark(i)
    && (forall u :: t < u < |h| ==> h[u] != Popped(i))
    && (forall u :: 0 <= u < t && h[u] == Mark(i) ==> PopBetween(h, i, u, t))
  }

  ghost predicate PopBetween(h: seq<Op>, i: nat, a: int, b: int) {
    exists u :: 0 <= u < |h| && a < u < b && h[u] == Popped(i)
  }

  ghost predicate Unpopped(h: seq<Op>, i: nat) {
    exists t :: 0 <= t < |h| && h[t] == Mark(i) && !PopBetween(h, i, t, |h|)
  }

  lemma {:induction false} DirtySinceMeaning(h: seq<Op>, i: nat)
    ensures DirtySince(h, i) >= 0 ==> FirstMarkSincePop(h, i, DirtySince(h, i))
    ensures DirtySince(h, i) >= 0 <==> Unpopped(h, i)
  {
    if h != [] {
      var n := |h| - 1;
      var h0 := h[..n];
      DirtySinceMeaning(h0, i);
      var t := DirtySince(h, i);
      UnpoppedStep(h, i);
      if t >= 0 {
        if t == n {
          forall u | 0 <= u < t && h[u] == Mark(i) ensures PopBetween(h, i, u, t) {
            assert h0[u] == Mark(i) && PopBetween(h0, i, u, |h0|);
            var v :| u < v < |h0| && h0[v] == Popped(i);
            assert h[v] == Popped(i);
          }
        } else {
          assert FirstMarkSincePop(h0, i, t);
          forall u | 0 <= u < t && h[u] == Mark(i) ensures PopBetween(h, i, u, t) {
            assert h0[u] == Mark(i) && PopBetween(h0, i, u, t);
            var v :| u < v < t && v < |h0| && h0[v] == Popped(i);
            assert h[v] == Popped(i);
          }
        }
      }
    }
  }

  lemma {:induction false} PopPrefix(h: seq<Op>, i: nat, t: int)
    requires h != [] && t < |h|
    ensures var n := |h| - 1;
            PopBetween(h, i, t, |h|) <==> PopBetween(h[..n], i, t, n) || (t < n && h[n] == Popped(i))
  {
    var n := |h| - 1;
    if PopBetween(h[..n], i, t, n) {
      var u :| 0 <= u < n && t < u < n && h[..n][u] == Popped(i);
      assert h[u] == Popped(i);
    }
    if PopBetween(h, i, t, |h|) {
      var u :| 0 <= u < |h| && t < u < |h| && h[u] == Popped(i);
      assert u < n ==> h[..n][u] == Popped(i);
    }
  }

  lemma {:induction false} UnpoppedStep(h: seq<Op>, i: nat)
    requires h != []
    ensures var n := |h| - 1;
            Unpopped(h, i) <==> h[n] == Mark(i) || (h[n] != Popped(i) && Unpopped(h[..n], i))
  {
    var n := |h| - 1;
    var h0 := h[..n];
    forall t | 0 <= t < |h| ensures PopBetween(h, i, t, |h|) <==> PopBetween(h0, i, t, n) || (t < n && h[n] == Popped(i)) {
      PopPrefix(h, i, t);
    }
    hide PopBetween;
    if Unpopped(h, i) && h[n] != Mark(i) {
      var t :| 0 <= t < |h| && h[t] == Mark(i) && !PopBetween(h, i, t, |h|);
      assert h0[t] == Mark(i);
    }
    if h[n] == Mark(i) {
      assert !PopBetween(h0, i, n, n) by { NothingBetween(h0, i); }
    } else if h[n] != Popped(i) && Unpopped(h0, i) {
      var t :| 0 <= t < |h0| && h0[t] == Mark(i) && !PopBetween(h0, i, t, |h0|);
      assert h[t] == Mark(i);
    }
  }

  lemma {:induction false} NothingBetween(h: seq<Op>, i: nat)
    ensures !PopBetween(h, i, |h|, |h|)
  {
  }

  // ---------------------------------------------------------------- the dirty list

  /** The list holds exactly the dirty properties, in the order in which they became dirty. */
  ghost predicate ListMatches(list: seq<nat>, h: seq<Op>) {
    && (forall i :: i in list <==> DirtySince(h, i) >= 0)
    && (forall a, b :: 0 <= a < b < |list| ==> DirtySince(h, list[a]) < DirtySince(h, list[b]))
  }

  lemma {:induction false} MatchesMeaning(list: seq<nat>, h: seq<Op>)
    requires ListMatches(list, h)
    ensures forall i: nat :: i in list <==> Unpopped(h, i)
    ensures forall a, b :: 0 <= a < b < |list| ==> DirtySince(h, list[a]) < DirtySince(h, list[b])
  {
    hide DirtySince, Unpopped;
    forall i: nat ensures i in list <==> Unpopped(h, i) {
      DirtySinceMeaning(h, i);
    }
  }

  function Marked(list: seq<nat>, i: nat): seq<nat> { if i in list then list else list + [i] }

  lemma {:induction false} StepSince(h: seq<Op>, op: Op, i: nat)
    ensures DirtySince(h + [op], i) ==
            if op == Popped(i) then -1 else if op == Mark(i) && DirtySince(h, i) < 0 then |h| else DirtySince(h, i)
  {
    assert (h + [op])[..|h|] == h;
  }

  lemma {:induction false} MarkKeeps(list: seq<nat>, h: seq<Op>, i: nat)
    requires ListMatches(list, h)
    ensures ListMatches(Marked(list, i), h + [Mark(i)])
  {
    hide DirtySince;
    forall j: nat ensures DirtySince(h + [Mark(i)], j) ==
        if j == i && DirtySince(h, j) < 0 then |h| else DirtySince(h, j) {
      StepSince(h, Mark(i), j);
    }
  }

  lemma {:induction false} PopKeeps(list: seq<nat>, h: seq<Op>)
    requires ListMatches(list, h) && list != []
    ensures ListMatches(list[1..], h + [Popped(list[0])])
  {
    hide DirtySince;
    var i := list[0];
    forall j: nat ensures DirtySince(h + [Popped(i)], j) == if j == i then -1 else DirtySince(h, j) {
      StepSince(h, Popped(i), j);
    }
    PopMembers(list, h);
  }

  // ---------------------------------------------------------------- the helper object

  datatype Blob = NoBlob | Found(id: int)

  /** The value stored for a set request, after the blob lookup for blob properties. */
  function Resolve(isBlob: bool, val: int, blob: Blob): int {
    if !isBlob then val else if val != 0 && blob == NoBlob then 0 else if blob.Found? then blob.id else val
  }

  ghost predicate DistinctProps(props: seq<int>) {
    forall a, b :: 0 <= a < b < |props| ==> props[a] != props[b]
  }

  class PropertyHelper {
    const props: seq<int>            // property_array, by property identity
    const defaults: seq<int>         // property_data[i].default_value
    const forceDirty: seq<bool>      // property_data[i].force_dirty
    const blobFlag: seq<bool>        // DRM_MODE_PROP_BLOB
    const blobCount: nat
    var recentIdx: int
    var values: seq<int>
    var dirty: seq<nat>              // dirty_list
    var linked: seq<bool>            // values[i].dirty_node is on a list
    ghost var history: seq<Op>       // marks and pops since the state was reset or duplicated

    ghost predicate Valid()
      reads this
    {
      && |props| == |defaults| == |forceDirty| == |blobFlag| == |values| == |linked|
      && DistinctProps(props)
      && 0 <= recentIdx && (|props| > 0 ==> recentIdx < |props|)
      && (forall i :: i in dirty ==> i < |props|)
      && (forall i :: 0 <= i < |linked| ==> linked[i] == (i in dirty))
      && ListMatches(dirty, history)
    }

    constructor (ps: seq<int>, ds: seq<int>, force: seq<bool>, blobs: seq<bool>, count: nat)
      requires |ps| == |ds| == |force| == |blobs| && DistinctProps(ps)
      ensures Valid() && dirty == [] && values == ds && history == [] && props == ps && defaults == ds
      ensures forceDirty == force && blobFlag == blobs && blobCount == (if count > |ps| then |ps| else count)
    {
      props, defaults, forceDirty, blobFlag := ps, ds, force, blobs;
      blobCount := if count > |ps| then |ps| else count;
      recentIdx, values, dirty := 0, ds, [];
      linked := seq(|ps|, i => false);
      history := [];
    }

    /**
     `msm_property_duplicate_state`: the new state has the old one's values and nothing dirty; what is
     still pending on the old state stays pending there, in its order.
     */
    constructor Duplicate(source: PropertyHelper)
      requires source.Valid()
      ensures Valid() && dirty == [] && history == [] && values == source.values
      ensures props == source.props && defaults == source.defaults && forceDirty == source.forceDirty
      ensures blobFlag == source.blobFlag && blobCount == source.blobCount && recentIdx == source.recentIdx
      ensures source.Valid() && source.dirty == old(source.dirty) && source.history == old(source.history)
      ensures forall i: nat :: i in source.dirty <==> Unpopped(source.history, i)
    {
      props, defaults, forceDirty, blobFlag := source.props, source.defaults, source.forceDirty, source.blobFlag;
      blobCount, recentIdx, values := source.blobCount, source.recentIdx, source.values;
      dirty, linked, history := [], [], [];
      new;
      for i := 0 to |props|
        invariant dirty == [] && history == [] && values == source.values && recentIdx == source.recentIdx
        invariant |linked| == i && forall k :: 0 <= k < i ==> !linked[k]
      {
        linked := linked + [false];
      }
      MatchesMeaning(source.dirty, source.history);
    }

    /**
     `msm_property_index`: the search starts at the index found last and wraps downwards; it finds
     the property exactly when a plain search does, at the only index it has.
     */
    method Index(property: int) returns (rc: int)
      requires Valid()
      modifies this`recentIdx
      ensures Valid()
      ensures rc == -EINVAL <==> property !in props
      ensures rc != -EINVAL ==> 0 <= rc < |props| && props[rc] == property && recentIdx == rc
      ensures rc != -EINVAL ==> forall k :: 0 <= k < |props| && props[k] == property ==> k == rc
      ensures rc == -EINVAL ==> recentIdx == old(recentIdx)
    {
      hide ListMatches;
      var n := |props|;
      var idx := recentIdx;
      var count := n;
      while count != 0
        invariant 0 <= count <= n && (n > 0 ==> 0 <= idx < n) && recentIdx == old(recentIdx)
        invariant n > 0 ==> idx == if n - count <= recentIdx then recentIdx - (n - count) else recentIdx + count
        invariant forall k :: 0 <= k < n && Visited(n, recentIdx, count, k) ==> props[k] != property
      {
        count := count - 1;
        if props[idx] == property {
          recentIdx := idx;
          return idx;
        }
        idx := idx - 1;
        if idx < 0 {
          idx := n - 1;
        }
      }
      return -EINVAL;
    }

    /** `_msm_property_set_dirty_no_lock`. */
    method MarkDirty(i: int)
      requires Valid()
      modifies this`dirty, this`linked, this`history
      ensures Valid()
      ensures 0 <= i < |props| ==> dirty == Marked(old(dirty), i) && history == old(history) + [Mark(i)]
      ensures !(0 <= i < |props|) ==> dirty == old(dirty) && history == old(history)
    {
      if !(0 <= i < |props|) {
        return;
      }
      MarkKeeps(dirty, history, i);
      hide ListMatches;
      history := history + [Mark(i)];
      if linked[i] {
        return;
      }
      linked := linked[i := true];
      dirty := dirty + [i];
      assert forall j :: j in dirty <==> j in old(dirty) || j == i;
    }

    /** `msm_property_atomic_set`; `blob` is what the blob lookup finds. */
    method AtomicSet(property: int, val: int, blob: Blob) returns (rc: int)
      requires Valid()
      modifies this
      ensures Valid()
      ensures rc == if property in props then 0 else -EINVAL
      ensures rc != 0 ==> values == old(values) && dirty == old(dirty) && history == old(history)
      ensures forall i :: 0 <= i < |props| && props[i] == property ==>
                && (!blobFlag[i] || i >= blobCount ==> values[i] == val)
                && (blobFlag[i] && i < blobCount ==>
                      values[i] == if blob.Found? then blob.id else 0)
      ensures forall i :: 0 <= i < |props| && props[i] == property ==>
                (var v := Resolve(blobFlag[i] && i < blobCount, val, blob);
                 && values == old(values)[i := v]
                 && (if old(values[i]) != v || forceDirty[i]
                     then dirty == Marked(old(dirty), i) && history == old(history) + [Mark(i)]
                     else dirty == old(dirty) && history == old(history)))
    {
      hide ListMatches, Marked;
      var i := Index(property);
      if i == -EINVAL {
        return -EINVAL;
      }
      var v := val;
      if blobFlag[i] && i < blobCount {
        if val != 0 && blob == NoBlob {
          v := 0;
        } else if blob.Found? {
          v := blob.id;
        }
      }
      if values[i] != v || forceDirty[i] {
        values := values[i := v];
        MarkDirty(i);
      } else {
        assert values == values[i := v];
      }
      assert v == Resolve(blobFlag[i] && i < blobCount, val, blob);
      return 0;
    }

    /** `msm_property_set_dirty`. */
    method SetDirty(i: int) returns (rc: int)
      requires Valid()
      modifies this`dirty, this`linked, this`history
      ensures Valid() && rc == 0
      ensures 0 <= i < |props| ==> dirty == Marked(old(dirty), i) && history == old(history) + [Mark(i)]
      ensures !(0 <= i < |props|) ==> dirty == old(dirty) && history == old(history)
    {
      MarkDirty(i);
      rc := 0;
    }

    /** `msm_property_pop_dirty`: the property that has been dirty longest. */
    method PopDirty() returns (rc: int)
      requires Valid()
      modifies this`dirty, this`linked, this`history
      ensures Valid()
      ensures rc == -EAGAIN <==> old(dirty) == []
      ensures old(dirty) == [] ==> dirty == [] && history == old(history)
      ensures old(dirty) != [] ==> rc == old(dirty)[0] && dirty == old(dirty)[1..] && history == old(history) + [Popped(rc)]
    {
      if dirty == [] {
        return -EAGAIN;
      }
      PopKeeps(dirty, history);
      PopMembers(dirty, history);
      assert dirty[0] in dirty;
      hide ListMatches;
      var i := dirty[0];
      dirty := dirty[1..];
      linked := linked[i := false];
      history := history + [Popped(i)];
      return i;
    }

    /**
     Popping until the list is empty returns every property that was marked since it was last
     popped, each once, in the order in which they became dirty.
     */
    method Drain() returns (popped: seq<nat>)
      requires Valid()
      modifies this`dirty, this`linked, this`history
      ensures Valid() && dirty == [] && popped == old(dirty)
      ensures forall i :: i in popped <==> Unpopped(old(history), i)
      ensures forall a, b :: 0 <= a < b < |popped| ==>
                DirtySince(old(history), popped[a]) < DirtySince(old(history), popped[b])
      ensures forall i: nat :: !Unpopped(history, i)
    {
      MatchesMeaning(dirty, history);
      hide ListMatches, DirtySince, Unpopped;
      popped := [];
      ghost var list := dirty;
      while true
        invariant Valid() && |popped| <= |list| && popped == list[..|popped|] && dirty == list[|popped|..]
        decreases |dirty|
      {
        var rc := PopDirty();
        if rc == -EAGAIN {
          break;
        }
        popped := popped + [rc];
      }
      MatchesMeaning(dirty, history);
    }

    /** `msm_property_reset_state` on the state's own values. */
    method Reset()
      requires Valid()
      modifies this`values, this`dirty, this`linked, this`history
      ensures Valid() && values == defaults && dirty == [] && history == []
    {
      dirty, values, history := [], [], [];
      linked := [];
      for i := 0 to |props|
        invariant dirty == [] && history == [] && values == defaults[..i]
        invariant |linked| == i && forall k :: 0 <= k < i ==> !linked[k]
      {
        values := values + [defaults[i]];
        linked := linked + [false];
      }
    }
  }

  lemma {:induction false} PopMembers(list: seq<nat>, h: seq<Op>)
    requires ListMatches(list, h) && list != []
    ensures forall j :: j in list[1..] <==> j in list && j != list[0]
  {
    hide DirtySince;
    forall j ensures j in list[1..] <==> j in list && j != list[0] {
      if j in list && j != list[0] {
        var a :| 0 <= a < |list| && list[a] == j;
        assert list[1..][a - 1] == j;
      }
    }
  }

  /** With `count` indices still to look at, the search that started at `start` has looked at `k`. */
  predicate Visited(n: nat, start: int, count: nat, k: int) {
    if n - count <= start then start - (n - count) < k <= start else k <= start || k > start + count
  }
}
