/**
 Event registration at the granularity of its lock (msm/msm_drv.c): the driver drops `event_lock`
 between the duplicate check, the count, the list update and the call to the hardware layer, so calls
 of several threads interleave between these steps.
 */
module EventRaces {
  import opened EventClients

  /** What a call does next. */
  datatype Pc =
    | Checking              // register: is the request a duplicate?
    | Counting              // register: how many clients wait already?
    | Adding(first: bool)   // register: append the client
    | Enabling              // register: enable the event for the first client
    | Undoing               // register: take the client off again
    | Removing              // deregister: find the client and take it off
    | Recounting            // deregister: how many clients are left?
    | Disabling             // deregister: disable the event after the last client
    | Done

  datatype Thread = Thread(e: Entry, pc: Pc)

  datatype Shared = Shared(list: seq<Entry>, enabled: set<Key>, threads: seq<Thread>)

  /** A call begins, or thread `t` takes its next step; `ok` is the hardware layer's answer. */
  datatype Turn = Begin(e: Entry, register: bool) | Advance(t: nat, ok: bool)

  function Without(list: seq<Entry>, e: Entry): seq<Entry> {
    var i := IndexOf(list, e);
    if i == -1 then list else list[..i] + list[i + 1..]
  }

  function NextList(list: seq<Entry>, th: Thread): seq<Entry> {
    match th.pc
    case Adding(_) => list + [th.e]
    case Undoing => Without(list, th.e)
    case Removing => Without(list, th.e)
    case _ => list
  }

  function NextEnabled(enabled: set<Key>, th: Thread, ok: bool): set<Key> {
    if th.pc == Enabling && ok then enabled + {th.e.key}
    else if th.pc == Disabling && ok then enabled - {th.e.key}
    else enabled
  }

  function NextPc(list: seq<Entry>, th: Thread, ok: bool): Pc {
    match th.pc
    case Checking => if th.e in list then Done else Counting
    case Counting => Adding(Count(list, th.e.key) == 0)
    case Adding(first) => if first then Enabling else Done
    case Enabling => if ok then Done else Undoing
    case Removing => if th.e in list then Recounting else Done
    case Recounting => if Count(list, th.e.key) == 0 then Disabling else Done
    case _ => Done
  }

  function Moved(s: Shared, t: nat, ok: bool): Shared
    requires t < |s.threads|
  {
    var th := s.threads[t];
    Shared(NextList(s.list, th), NextEnabled(s.enabled, th, ok),
           s.threads[t := Thread(th.e, NextPc(s.list, th, ok))])
  }

  function Take(s: Shared, turn: Turn): Shared {
    match turn
    case Begin(e, register) => s.(threads := s.threads + [Thread(e, if register then Checking else Removing)])
    case Advance(t, ok) => if t < |s.threads| then Moved(s, t, ok) else s
  }

  /** Any interleaving of any calls. */
  function Interleaved(turns: seq<Turn>): Shared {
    if turns == [] then Shared([], {}, [])
    else Take(Interleaved(turns[..|turns| - 1]), turns[|turns| - 1])
  }

  // ---------------------------------------------------------------- what can go wrong

  const ExKey := Key(1, 1)
  const ExA := Entry(1, ExKey)
  const ExB := Entry(2, ExKey)

  /** Every hardware call succeeds. */
  ghost predicate AllOk(turns: seq<Turn>) {
    forall n :: 0 <= n < |turns| && turns[n].Advance? ==> turns[n].ok
  }

  lemma {:induction false} Then(turns: seq<Turn>, turn: Turn)
    requires AllOk(turns) && (turn.Advance? ==> turn.ok)
    ensures Interleaved(turns + [turn]) == Take(Interleaved(turns), turn) && AllOk(turns + [turn])
  {
    assert (turns + [turn])[..|turns|] == turns;
  }

  /** The first client registers and is enabled. */
  lemma {:induction false} ExampleFirst() returns (turns: seq<Turn>)
    ensures AllOk(turns) && Interleaved(turns) == Shared([ExA], {ExKey}, [Thread(ExA, Done)])
  {
    var adv := Advance(0, true);
    turns := [Begin(ExA, true)];
    assert turns[..0] == [];
    assert Interleaved(turns) == Shared([], {}, [Thread(ExA, Checking)]);
    hide Interleaved, AllOk;
    Then(turns, adv);
    turns := turns + [adv];
    assert Interleaved(turns) == Shared([], {}, [Thread(ExA, Counting)]);
    Then(turns, adv);
    turns := turns + [adv];
    assert Interleaved(turns) == Shared([], {}, [Thread(ExA, Adding(true))]);
    Then(turns, adv);
    turns := turns + [adv];
    assert Interleaved(turns) == Shared([ExA], {}, [Thread(ExA, Enabling)]);
    Then(turns, adv);
    turns := turns + [adv];
  }

  /** A second client finds the first one and will not enable; then the first one wants to leave. */
  lemma {:induction false} ExampleSecond() returns (turns: seq<Turn>)
    ensures AllOk(turns)
    ensures Interleaved(turns) ==
            Shared([ExA], {ExKey}, [Thread(ExA, Done), Thread(ExB, Adding(false)), Thread(ExA, Removing)])
  {
    turns := ExampleFirst();
    hide Interleaved, AllOk, Count;
    Then(turns, Begin(ExB, true));
    turns := turns + [Begin(ExB, true)];
    assert Interleaved(turns) == Shared([ExA], {ExKey}, [Thread(ExA, Done), Thread(ExB, Checking)]);
    Then(turns, Advance(1, true));
    turns := turns + [Advance(1, true)];
    assert Interleaved(turns) == Shared([ExA], {ExKey}, [Thread(ExA, Done), Thread(ExB, Counting)]);
    Then(turns, Advance(1, true));
    turns := turns + [Advance(1, true)];
    assert Count([ExA], ExKey) > 0 by { CountPositive([ExA], ExKey); assert [ExA][0].key == ExKey; }
    assert Interleaved(turns) == Shared([ExA], {ExKey}, [Thread(ExA, Done), Thread(ExB, Adding(false))]);
    Then(turns, Begin(ExA, false));
    turns := turns + [Begin(ExA, false)];
  }

  /**
   The interleaving that breaks: a second client is counted in, the first one leaves and the event is
   disabled, the second one is appended. Every call returns success, and it waits for a disabled event.
   */
  lemma {:induction false} RaceLosesEvent()
    ensures exists turns :: AllOk(turns) && Interleaved(turns) ==
              Shared([ExB], {}, [Thread(ExA, Done), Thread(ExB, Done), Thread(ExA, Done)])
  {
    var turns := ExampleSecond();
    hide Interleaved, AllOk, Count;
    var b := Thread(ExB, Adding(false));
    Then(turns, Advance(2, true));
    turns := turns + [Advance(2, true)];
    assert IndexOf([ExA], ExA) == 0;
    assert Interleaved(turns) == Shared([], {ExKey}, [Thread(ExA, Done), b, Thread(ExA, Recounting)]);
    Then(turns, Advance(2, true));
    turns := turns + [Advance(2, true)];
    assert Count([], ExKey) == 0 by { CountPositive([], ExKey); }
    assert Interleaved(turns) == Shared([], {ExKey}, [Thread(ExA, Done), b, Thread(ExA, Disabling)]);
    Then(turns, Advance(2, true));
    turns := turns + [Advance(2, true)];
    assert Interleaved(turns) == Shared([], {}, [Thread(ExA, Done), b, Thread(ExA, Done)]);
    Then(turns, Advance(1, true));
    turns := turns + [Advance(1, true)];
  }

  // ---------------------------------------------------------------- calls that stay apart

  predicate Active(th: Thread) { th.pc != Done }

  ghost predicate Busy(s: Shared, key: Key) {
    exists t :: 0 <= t < |s.threads| && Active(s.threads[t]) && s.threads[t].e.key == key
  }

  /** A call begins only when no call for the same event and object is under way; disable calls succeed. */
  ghost predicate Apart(s: Shared, turn: Turn) {
    match turn
    case Begin(e, _) => !Busy(s, e.key)
    case Advance(t, ok) => t < |s.threads| && s.threads[t].pc == Disabling ==> ok
  }

  /** Nobody but `e` waits for its event. */
  ghost predicate Alone(list: seq<Entry>, e: Entry) {
    e in list && forall x :: x in list && x.key == e.key ==> x == e
  }

  ghost predicate InStep(list: seq<Entry>, enabled: set<Key>, key: Key) { key in enabled <==> Waits(list, key) }

  /** What a call under way knows about its event. */
  ghost predicate Knows(list: seq<Entry>, enabled: set<Key>, th: Thread) {
    var key := th.e.key;
    match th.pc
    case Checking => InStep(list, enabled, key)
    case Counting => InStep(list, enabled, key) && th.e !in list
    case Adding(first) => InStep(list, enabled, key) && th.e !in list && (first <==> !Waits(list, key))
    case Enabling => Alone(list, th.e) && key !in enabled
    case Undoing => Alone(list, th.e) && key !in enabled
    case Removing => InStep(list, enabled, key)
    case Recounting => key in enabled && th.e !in list
    case Disabling => key in enabled && !Waits(list, key)
    case Done => true
  }

  /**
   No duplicates; at most one call per event and object is under way and knows how things stand;
   all other events are enabled exactly when somebody waits for them.
   */
  ghost predicate Steady(s: Shared) {
    && NoDuplicates(s.list)
    && (forall t :: 0 <= t < |s.threads| ==> Knows(s.list, s.enabled, s.threads[t]))
    && (forall t, u :: 0 <= t < u < |s.threads| && Active(s.threads[t]) && Active(s.threads[u]) ==>
          s.threads[t].e.key != s.threads[u].e.key)
    && (forall key :: Busy(s, key) || InStep(s.list, s.enabled, key))
  }

  /** The two states look the same to whoever asks about `key` only. */
  ghost predicate SameFor(list: seq<Entry>, enabled: set<Key>, list': seq<Entry>, enabled': set<Key>, key: Key) {
    && (forall x: Entry :: x.key == key ==> (x in list' <==> x in list))
    && (key in enabled' <==> key in enabled)
  }

  lemma {:induction false} WaitsSame(list: seq<Entry>, list': seq<Entry>, key: Key)
    requires forall x: Entry :: x.key == key ==> (x in list' <==> x in list)
    ensures Waits(list', key) <==> Waits(list, key)
  {
    hide Waits;
    WaitsMember(list, key);
    WaitsMember(list', key);
  }

  lemma {:induction false} KnowsSame(list: seq<Entry>, enabled: set<Key>, list': seq<Entry>, enabled': set<Key>, th: Thread)
    requires SameFor(list, enabled, list', enabled', th.e.key) && Knows(list, enabled, th)
    ensures Knows(list', enabled', th)
  {
    WaitsSame(list, list', th.e.key);
    hide Waits;
  }

  lemma {:induction false} WithoutOnly(list: seq<Entry>, e: Entry)
    requires NoDuplicates(list)
    ensures NoDuplicates(Without(list, e))
    ensures forall x :: x in Without(list, e) <==> x in list && x != e
  {
    var i := IndexOf(list, e);
    if i != -1 {
      RemoveOnly(list, i);
    }
  }

  /** One step of a call: no duplicates, other events untouched. */
  lemma {:induction false} MoveFrame(list: seq<Entry>, enabled: set<Key>, th: Thread, ok: bool)
    requires NoDuplicates(list) && Knows(list, enabled, th)
    ensures NoDuplicates(NextList(list, th))
    ensures forall key :: key != th.e.key ==> SameFor(list, enabled, NextList(list, th), NextEnabled(enabled, th, ok), key)
  {
    hide Waits;
    WithoutOnly(list, th.e);
  }

  /** One step of a call: it knows how things stand afterwards, and leaves its event in step when it is done. */
  lemma {:induction false} MoveKnows(list: seq<Entry>, enabled: set<Key>, th: Thread, ok: bool)
    requires NoDuplicates(list) && Knows(list, enabled, th) && Active(th) && (th.pc == Disabling ==> ok)
    ensures var list', enabled', th' := NextList(list, th), NextEnabled(enabled, th, ok), Thread(th.e, NextPc(list, th, ok));
            Knows(list', enabled', th') && (th'.pc == Done ==> InStep(list', enabled', th.e.key))
  {
    hide Waits, Count, NoDuplicates, Without;
    var e := th.e;
    CountPositive(list, e.key);
    WaitsMember(list, e.key);
    WithoutOnly(list, e);
    WaitsMember(Without(list, e), e.key);
    WaitsAppend(list, e, e.key);
  }

  lemma {:induction false} MoveKeepsSteady(s: Shared, t: nat, ok: bool)
    requires Steady(s) && Apart(s, Advance(t, ok)) && t < |s.threads|
    ensures Steady(Moved(s, t, ok))
  {
    var th, r := s.threads[t], Moved(s, t, ok);
    if th.pc != Done {
      MoveFrame(s.list, s.enabled, th, ok);
      MoveKnows(s.list, s.enabled, th, ok);
      hide Knows, NextList, NextEnabled, NextPc, NoDuplicates, SameFor, InStep;
      forall u | 0 <= u < |r.threads| ensures Knows(r.list, r.enabled, r.threads[u]) {
        if u != t {
          if s.threads[u].e.key != th.e.key {
            KnowsSame(s.list, s.enabled, r.list, r.enabled, s.threads[u]);
          } else {
            assert !Active(s.threads[u]);
            DoneKnows(r.list, r.enabled, s.threads[u]);
          }
        }
      }
      forall key ensures Busy(r, key) || InStep(r.list, r.enabled, key) {
        MoveInStep(s, t, ok, key);
      }
    } else {
      assert r == s;
    }
  }

  lemma {:induction false} DoneKnows(list: seq<Entry>, enabled: set<Key>, th: Thread)
    requires !Active(th)
    ensures Knows(list, enabled, th)
  {
  }

  lemma {:induction false} MoveInStep(s: Shared, t: nat, ok: bool, key: Key)
    requires Steady(s) && t < |s.threads| && Active(s.threads[t])
    requires var th, r := s.threads[t], Moved(s, t, ok);
             && (key != th.e.key ==> SameFor(s.list, s.enabled, r.list, r.enabled, key))
             && (r.threads[t].pc == Done ==> InStep(r.list, r.enabled, th.e.key))
    ensures var r := Moved(s, t, ok); Busy(r, key) || InStep(r.list, r.enabled, key)
  {
    hide Knows, NextList, NextEnabled, NextPc, NoDuplicates, Waits;
    var th, r := s.threads[t], Moved(s, t, ok);
    if key == th.e.key {
      assert Active(r.threads[t]) ==> Busy(r, key);
    } else if Busy(s, key) {
      var u :| 0 <= u < |s.threads| && Active(s.threads[u]) && s.threads[u].e.key == key;
      assert r.threads[u] == s.threads[u];
    } else {
      WaitsSame(s.list, r.list, key);
    }
  }

  lemma {:induction false} BeginKeepsSteady(s: Shared, e: Entry, register: bool)
    requires Steady(s) && !Busy(s, e.key)
    ensures Steady(Take(s, Begin(e, register)))
  {
    hide NoDuplicates, InStep;
    var r := Take(s, Begin(e, register));
    assert InStep(s.list, s.enabled, e.key);
    assert forall t :: 0 <= t < |s.threads| ==> r.threads[t] == s.threads[t];
    forall key ensures Busy(s, key) ==> Busy(r, key) {
      if Busy(s, key) {
        var t :| 0 <= t < |s.threads| && Active(s.threads[t]) && s.threads[t].e.key == key;
        assert r.threads[t] == s.threads[t];
      }
    }
  }

  lemma {:induction false} TurnKeepsSteady(s: Shared, turn: Turn)
    requires Steady(s) && Apart(s, turn)
    ensures Steady(Take(s, turn))
  {
    hide Steady;
    match turn {
      case Begin(e, register) => BeginKeepsSteady(s, e, register);
      case Advance(t, ok) => if t < |s.threads| { MoveKeepsSteady(s, t, ok); }
    }
  }

  lemma {:induction false} NothingSteady()
    ensures Steady(Shared([], {}, []))
  {
    hide Waits;
    forall key ensures !Waits([], key) {
      WaitsMember([], key);
    }
  }

  /**
   What survives at lock granularity: under every interleaving in which calls for the same event and
   object do not overlap, calls for different ones interleaving freely, there are no duplicates, and
   an event no call is working on is enabled exactly when somebody waits for it.
   */
  lemma {:induction false} ApartStaysSteady(turns: seq<Turn>)
    requires forall n :: 0 <= n < |turns| ==> Apart(Interleaved(turns[..n]), turns[n])
    ensures Steady(Interleaved(turns))
  {
    hide Steady, Apart, Take;
    if turns == [] {
      NothingSteady();
    } else {
      var n := |turns| - 1;
      assert forall k :: 0 <= k < n ==> turns[..n][..k] == turns[..k];
      ApartStaysSteady(turns[..n]);
      TurnKeepsSteady(Interleaved(turns[..n]), turns[n]);
    }
  }

  // ---------------------------------------------------------------- exactly when an event gets out of step

  /** Every event that no call is working on is enabled exactly when somebody waits for it. */
  ghost predicate AtRest(s: Shared) { forall key :: Busy(s, key) || InStep(s.list, s.enabled, key) }

  /** No other call for the same event and object is under way. */
  ghost predicate LastOn(s: Shared, t: nat)
    requires t < |s.threads|
  {
    && Active(s.threads[t])
    && forall u :: 0 <= u < |s.threads| && u != t && Active(s.threads[u]) ==> s.threads[u].e.key != s.threads[t].e.key
  }

  /**
   The last call on an event ends on outdated knowledge: it appends a client that was counted in
   although the event is no longer enabled, enables with nobody left, disables with somebody back, and
   so on, by what it does in its last step.
   */
  ghost predicate Outdated(list: seq<Entry>, enabled: set<Key>, th: Thread, ok: bool) {
    var key := th.e.key;
    match th.pc
    case Adding(first) => !first && key !in enabled
    case Enabling => ok && !Waits(list, key)
    case Recounting => Waits(list, key) && key !in enabled
    case Disabling => if ok then Waits(list, key) else !InStep(list, enabled, key)
    case Undoing => !InStep(Without(list, th.e), enabled, key)
    case Checking => th.e in list && key !in enabled
    case Removing => th.e !in list && !InStep(list, enabled, key)
    case _ => false
  }

  ghost predicate Breaks(s: Shared, turn: Turn) {
    && turn.Advance? && turn.t < |s.threads| && LastOn(s, turn.t)
    && Outdated(s.list, s.enabled, s.threads[turn.t], turn.ok)
  }

  /** A call that ends leaves its event in step exactly when its last step is not outdated. */
  lemma {:induction false} EndsInStepIff(list: seq<Entry>, enabled: set<Key>, th: Thread, ok: bool)
    requires Active(th)
    ensures Outdated(list, enabled, th, ok) <==>
            NextPc(list, th, ok) == Done && !InStep(NextList(list, th), NextEnabled(enabled, th, ok), th.e.key)
  {
    hide Waits, Count, IndexOf;
    CountPositive(list, th.e.key);
    WaitsMember(list, th.e.key);
    WaitsAppend(list, th.e, th.e.key);
    assert th.e !in list ==> Without(list, th.e) == list;
  }

  /** A step changes nothing for other events, even with duplicates in the list. */
  lemma {:induction false} OthersUntouched(list: seq<Entry>, enabled: set<Key>, th: Thread, ok: bool, key: Key)
    requires key != th.e.key
    ensures InStep(NextList(list, th), NextEnabled(enabled, th, ok), key) <==> InStep(list, enabled, key)
  {
    WaitsAppend(list, th.e, key);
    var i := IndexOf(list, th.e);
    if i != -1 {
      WaitsRemove(list, i, key);
    }
    hide Waits;
  }

  lemma {:induction false} TurnRestIff(s: Shared, turn: Turn)
    requires AtRest(s)
    ensures AtRest(Take(s, turn)) <==> !Breaks(s, turn)
  {
    hide Outdated, InStep, NextList, NextEnabled, NextPc;
    var r := Take(s, turn);
    if turn.Begin? {
      forall key ensures Busy(s, key) ==> Busy(r, key) {
        if u :| 0 <= u < |s.threads| && Active(s.threads[u]) && s.threads[u].e.key == key {
          assert r.threads[u] == s.threads[u];
        }
      }
    } else if turn.t < |s.threads| && Active(s.threads[turn.t]) {
      var t, th := turn.t, s.threads[turn.t];
      EndsInStepIff(s.list, s.enabled, th, turn.ok);
      BusyAfter(s, t, turn.ok);
      forall key | key != th.e.key ensures Busy(r, key) || InStep(r.list, r.enabled, key) {
        OthersUntouched(s.list, s.enabled, th, turn.ok, key);
      }
    } else if turn.t < |s.threads| {
      assert r == s by { DoneStays(s, turn.t, turn.ok); }
    }
  }

  lemma {:induction false} DoneStays(s: Shared, t: nat, ok: bool)
    requires t < |s.threads| && !Active(s.threads[t])
    ensures Moved(s, t, ok) == s
  {
  }

  lemma {:induction false} BusyAfter(s: Shared, t: nat, ok: bool)
    requires t < |s.threads| && Active(s.threads[t])
    ensures var r, th := Moved(s, t, ok), s.threads[t];
            && (forall key :: key != th.e.key ==> (Busy(r, key) <==> Busy(s, key)))
            && (Busy(r, th.e.key) <==> NextPc(s.list, th, ok) != Done || !LastOn(s, t))
  {
    hide NextPc, NextList, NextEnabled;
    var r, th := Moved(s, t, ok), s.threads[t];
    forall key | key != th.e.key ensures Busy(r, key) <==> Busy(s, key) {
      if u :| 0 <= u < |s.threads| && Active(s.threads[u]) && s.threads[u].e.key == key {
        assert r.threads[u] == s.threads[u];
      }
      if u :| 0 <= u < |r.threads| && Active(r.threads[u]) && r.threads[u].e.key == key {
        assert r.threads[u] == s.threads[u];
      }
    }
    if !LastOn(s, t) {
      var u :| 0 <= u < |s.threads| && u != t && Active(s.threads[u]) && s.threads[u].e.key == th.e.key;
      assert r.threads[u] == s.threads[u];
    }
    if Active(r.threads[t]) {
      assert Busy(r, th.e.key);
    }
    if Busy(r, th.e.key) && NextPc(s.list, th, ok) == Done {
      var u :| 0 <= u < |r.threads| && Active(r.threads[u]) && r.threads[u].e.key == th.e.key;
      assert u != t && r.threads[u] == s.threads[u];
    }
  }

  /**
   Under every interleaving of any calls, whatever the hardware answers: events nobody works on are
   enabled exactly when somebody waits for them, at all times, if and only if no call that is the last
   one on its event ends on outdated knowledge.
   */
  lemma {:induction false} RestIff(turns: seq<Turn>)
    ensures (forall n :: 0 <= n <= |turns| ==> AtRest(Interleaved(turns[..n]))) <==>
            (forall n :: 0 <= n < |turns| ==> !Breaks(Interleaved(turns[..n]), turns[n]))
  {
    hide AtRest, Breaks, Take;
    if forall n :: 0 <= n < |turns| ==> !Breaks(Interleaved(turns[..n]), turns[n]) {
      forall n | 0 <= n <= |turns| ensures AtRest(Interleaved(turns[..n])) {
        PrefixAtRest(turns, n);
      }
    }
    if forall n :: 0 <= n <= |turns| ==> AtRest(Interleaved(turns[..n])) {
      forall n | 0 <= n < |turns| ensures !Breaks(Interleaved(turns[..n]), turns[n]) {
        assert AtRest(Interleaved(turns[..n])) && AtRest(Interleaved(turns[..n + 1]));
        assert turns[..n + 1][..n] == turns[..n];
        TurnRestIff(Interleaved(turns[..n]), turns[n]);
      }
    }
  }

  lemma {:induction false} PrefixAtRest(turns: seq<Turn>, n: nat)
    requires n <= |turns| && forall k :: 0 <= k < |turns| ==> !Breaks(Interleaved(turns[..k]), turns[k])
    ensures AtRest(Interleaved(turns[..n]))
  {
    hide Breaks, Take;
    if n == 0 {
      NothingSteady();
    } else {
      PrefixAtRest(turns, n - 1);
      hide AtRest;
      assert turns[..n][..n - 1] == turns[..n - 1];
      TurnRestIff(Interleaved(turns[..n - 1]), turns[n - 1]);
    }
  }
}
