/**
 Registration of display event clients (msm/msm_drv.c): a list of (file, event, object) entries, and
 the enable and disable calls to the hardware layer that must follow its edges.
 */
module EventClients {

  datatype Key = Key(event: int, object: int)

  datatype Entry = Entry(file: int, key: Key)

  /** One `msm_register_event` call: enable or disable `key`, and whether it succeeded. */
  datatype Call = Call(key: Key, on: bool, ok: bool)

  datatype Rc = Ok | EUnsupported | EAlready | ENoEnt | EFailed

  datatype State = State(list: seq<Entry>, calls: seq<Call>)

  /** The events enabled in hardware by a history of calls. */
  function EnabledAfter(calls: seq<Call>): set<Key> {
    if calls == [] then {}
    else
      var before := EnabledAfter(calls[..|calls| - 1]);
      var c := calls[|calls| - 1];
      if !c.ok then before else if c.on then before + {c.key} else before - {c.key}
  }

  /** Enable calls are made only for disabled events and disable calls only for enabled ones. */
  ghost predicate EdgesOnly(calls: seq<Call>) {
    forall t :: 0 <= t < |calls| ==> (calls[t].on <==> calls[t].key !in EnabledAfter(calls[..t]))
  }

  function Count(list: seq<Entry>, key: Key): nat {
    if list == [] then 0 else Count(list[..|list| - 1], key) + if list[|list| - 1].key == key then 1 else 0
  }

  predicate Waits(list: seq<Entry>, key: Key) { exists i :: 0 <= i < |list| && list[i].key == key }

  // ---------------------------------------------------------------- operations

  datatype Result = Result(s: State, rc: Rc)

  function Register(s: State, e: Entry, supported: bool, enableOk: bool): Result {
    if !supported then Result(s, EUnsupported)
    else if e in s.list then Result(s, EAlready)
    else if Count(s.list, e.key) > 0 then Result(s.(list := s.list + [e]), Ok)
    else if enableOk then Result(State(s.list + [e], s.calls + [Call(e.key, true, true)]), Ok)
    else Result(s.(calls := s.calls + [Call(e.key, true, false)]), EFailed)
  }

  function IndexOf(list: seq<Entry>, e: Entry): (i: int)
    ensures i == -1 ==> e !in list
    ensures i != -1 ==> 0 <= i < |list| && list[i] == e && e !in list[..i]
  {
    if list == [] then -1
    else
      var i := IndexOf(list[..|list| - 1], e);
      if i != -1 then i else if list[|list| - 1] == e then |list| - 1 else -1
  }

  function Deregister(s: State, e: Entry, supported: bool, disableOk: bool): Result {
    var i := IndexOf(s.list, e);
    if !supported then Result(s, EUnsupported)
    else if i == -1 then Result(s, ENoEnt)
    else
      var rest := s.list[..i] + s.list[i + 1..];
      if Count(rest, e.key) == 0 then
        Result(State(rest, s.calls + [Call(e.key, false, disableOk)]), if disableOk then Ok else EFailed)
      else Result(s.(list := rest), Ok)
  }

  /** The entries of `file`, and all others, in list order. */
  function Of(list: seq<Entry>, file: int, mine: bool): seq<Entry> {
    if list == [] then []
    else
      var r := Of(list[..|list| - 1], file, mine);
      var e := list[|list| - 1];
      if (e.file == file) == mine then r + [e] else r
  }

  /** Whether the disable call of round `n` succeeds; rounds beyond the given answers do. */
  predicate Answer(answers: seq<bool>, n: nat) { n < |answers| ==> answers[n] }

  /** The second loop of `msm_release`, after its first `n` rounds. */
  function Disabled(kept: seq<Entry>, moved: seq<Entry>, calls: seq<Call>, answers: seq<bool>, n: nat): seq<Call>
    requires n <= |moved|
  {
    if n == 0 then calls
    else
      var c := Disabled(kept, moved, calls, answers, n - 1);
      var key := moved[n - 1].key;
      if Count(kept, key) + Count(moved[n..], key) == 0 then c + [Call(key, false, Answer(answers, n - 1))] else c
  }

  /** `answers[n]` is what the hardware layer answers if round `n` disables its event. */
  function Release(s: State, file: int, answers: seq<bool>): State {
    var kept, moved := Of(s.list, file, false), Of(s.list, file, true);
    State(kept, Disabled(kept, moved, s.calls, answers, |moved|))
  }

  datatype Event =
    | DoRegister(e: Entry, supported: bool, enableOk: bool)
    | DoDeregister(e: Entry, supported: bool, disableOk: bool)
    | DoRelease(file: int, answers: seq<bool>)

  function Step(s: State, ev: Event): State {
    match ev
    case DoRegister(e, supported, enableOk) => Register(s, e, supported, enableOk).s
    case DoDeregister(e, supported, disableOk) => Deregister(s, e, supported, disableOk).s
    case DoRelease(file, answers) => Release(s, file, answers)
  }

  function Run(evs: seq<Event>): State {
    if evs == [] then State([], []) else Step(Run(evs[..|evs| - 1]), evs[|evs| - 1])
  }

  // ---------------------------------------------------------------- what every operation keeps

  ghost predicate NoDuplicates(list: seq<Entry>) {
    forall i, j :: 0 <= i < j < |list| ==> list[i] != list[j]
  }

  /** An event is enabled exactly when an entry for it remains; calls follow the edges. */
  ghost predicate Good(s: State) {
    && NoDuplicates(s.list) && EdgesOnly(s.calls)
    && forall key :: key in EnabledAfter(s.calls) <==> Waits(s.list, key)
  }

  lemma {:induction false} CountPositive(list: seq<Entry>, key: Key)
    ensures Count(list, key) > 0 <==> Waits(list, key)
  {
    if list != [] {
      var n := |list| - 1;
      CountPositive(list[..n], key);
      if Waits(list, key) {
        var i :| 0 <= i < |list| && list[i].key == key;
        assert i < n ==> list[..n][i].key == key;
      }
      if Waits(list[..n], key) {
        var i :| 0 <= i < n && list[..n][i].key == key;
        assert list[i].key == key;
      }
    }
  }

  lemma {:induction false} CallAppend(calls: seq<Call>, c: Call)
    requires EdgesOnly(calls) && (c.on <==> c.key !in EnabledAfter(calls))
    ensures EdgesOnly(calls + [c])
    ensures EnabledAfter(calls + [c]) ==
            if !c.ok then EnabledAfter(calls) else if c.on then EnabledAfter(calls) + {c.key} else EnabledAfter(calls) - {c.key}
  {
    var cs := calls + [c];
    assert cs[..|calls|] == calls;
    forall t | 0 <= t < |cs| ensures cs[t].on <==> cs[t].key !in EnabledAfter(cs[..t]) {
      if t < |calls| {
        assert cs[..t] == calls[..t];
      }
    }
  }

  lemma {:induction false} WaitsAppend(list: seq<Entry>, e: Entry, key: Key)
    ensures Waits(list + [e], key) <==> Waits(list, key) || key == e.key
  {
    if Waits(list, key) {
      var i :| 0 <= i < |list| && list[i].key == key;
      assert (list + [e])[i].key == key;
    }
    assert (list + [e])[|list|] == e;
  }

  lemma {:induction false} RegisterKeeps(s: State, e: Entry, supported: bool, enableOk: bool)
    requires Good(s)
    ensures Good(Register(s, e, supported, enableOk).s)
  {
    hide EdgesOnly, EnabledAfter, Count, Waits;
    CountPositive(s.list, e.key);
    forall key ensures Waits(s.list + [e], key) <==> Waits(s.list, key) || key == e.key {
      WaitsAppend(s.list, e, key);
    }
    if Count(s.list, e.key) == 0 {
      CallAppend(s.calls, Call(e.key, true, enableOk));
    }
  }

  lemma {:induction false} WaitsRemove(list: seq<Entry>, i: nat, key: Key)
    requires i < |list|
    ensures Waits(list, key) <==> Waits(list[..i] + list[i + 1..], key) || key == list[i].key
  {
    var rest := list[..i] + list[i + 1..];
    if Waits(rest, key) {
      var j :| 0 <= j < |rest| && rest[j].key == key;
      assert list[if j < i then j else j + 1].key == key;
    }
    if Waits(list, key) && key != list[i].key {
      var j :| 0 <= j < |list| && list[j].key == key;
      assert rest[if j < i then j else j - 1].key == key;
    }
  }

  lemma {:induction false} DeregisterKeeps(s: State, e: Entry, supported: bool)
    requires Good(s)
    ensures Good(Deregister(s, e, supported, true).s)
  {
    hide EdgesOnly, EnabledAfter, Count, Waits;
    var i := IndexOf(s.list, e);
    if supported && i != -1 {
      var rest := s.list[..i] + s.list[i + 1..];
      CountPositive(rest, e.key);
      forall key ensures Waits(s.list, key) <==> Waits(rest, key) || key == e.key {
        WaitsRemove(s.list, i, key);
      }
      if Count(rest, e.key) == 0 {
        CallAppend(s.calls, Call(e.key, false, true));
      }
    }
  }

  lemma {:induction false} OfMembers(list: seq<Entry>, file: int, mine: bool)
    ensures forall e :: e in Of(list, file, mine) <==> e in list && (e.file == file) == mine
    ensures NoDuplicates(list) ==> NoDuplicates(Of(list, file, mine))
  {
    if list != [] {
      var n := |list| - 1;
      OfMembers(list[..n], file, mine);
      assert forall e :: e in list <==> e in list[..n] || e == list[n];
      if NoDuplicates(list) {
        assert list[n] !in list[..n];
      }
    }
  }

  lemma {:induction false} WaitsMember(list: seq<Entry>, key: Key)
    ensures Waits(list, key) <==> exists e :: e in list && e.key == key
  {
    if exists e :: e in list && e.key == key {
      var e :| e in list && e.key == key;
      var i :| 0 <= i < |list| && list[i] == e;
      assert list[i].key == key;
    }
  }

  /** After `n` rounds of the release loop the enabled events are those still waited for by anyone. */
  ghost predicate LoopOk(kept: seq<Entry>, moved: seq<Entry>, calls: seq<Call>, n: nat) {
    && n <= |moved| && EdgesOnly(calls)
    && forall key :: key in EnabledAfter(calls) <==> Waits(kept, key) || Waits(moved[n..], key)
  }

  lemma {:induction false} LoopStep(kept: seq<Entry>, moved: seq<Entry>, calls: seq<Call>, n: nat)
    requires LoopOk(kept, moved, calls, n) && n < |moved|
    ensures var key := moved[n].key;
            LoopOk(kept, moved, if Count(kept, key) + Count(moved[n + 1..], key) == 0
                                then calls + [Call(key, false, true)] else calls, n + 1)
  {
    hide EdgesOnly, EnabledAfter, Count, Waits;
    var key := moved[n].key;
    CountPositive(kept, key);
    CountPositive(moved[n + 1..], key);
    forall k ensures Waits(moved[n..], k) <==> Waits(moved[n + 1..], k) || k == key {
      WaitsRemove(moved[n..], 0, k);
      assert moved[n..][..0] + moved[n..][1..] == moved[n + 1..];
    }
    if Count(kept, key) + Count(moved[n + 1..], key) == 0 {
      CallAppend(calls, Call(key, false, true));
    }
  }

  lemma {:induction false} LoopKeeps(kept: seq<Entry>, moved: seq<Entry>, calls: seq<Call>, answers: seq<bool>, n: nat)
    requires LoopOk(kept, moved, calls, 0) && n <= |moved| && forall k: nat :: Answer(answers, k)
    ensures LoopOk(kept, moved, Disabled(kept, moved, calls, answers, n), n)
  {
    hide LoopOk, Count, Answer;
    if n > 0 {
      LoopKeeps(kept, moved, calls, answers, n - 1);
      LoopStep(kept, moved, Disabled(kept, moved, calls, answers, n - 1), n - 1);
      assert Answer(answers, n - 1);
    }
  }

  lemma {:induction false} ReleaseKeeps(s: State, file: int, answers: seq<bool>)
    requires Good(s) && forall k: nat :: Answer(answers, k)
    ensures Good(Release(s, file, answers))
  {
    hide EdgesOnly, EnabledAfter, Waits, Disabled;
    var kept, moved := Of(s.list, file, false), Of(s.list, file, true);
    OfMembers(s.list, file, false);
    OfMembers(s.list, file, true);
    assert moved[0..] == moved && moved[|moved|..] == [];
    forall key ensures Waits(s.list, key) <==> Waits(kept, key) || Waits(moved, key) {
      WaitsMember(s.list, key);
      WaitsMember(kept, key);
      WaitsMember(moved, key);
    }
    LoopKeeps(kept, moved, s.calls, answers, |moved|);
    forall key ensures !Waits([], key) {
      WaitsMember([], key);
    }
  }

  /** The keys for which a release loop has called the hardware after `n` rounds. */
  ghost predicate CalledFor(before: seq<Call>, after: seq<Call>, key: Key) {
    exists t :: |before| <= t < |after| && after[t].key == key
  }

  /**
   A release disables, once each, exactly the events its file waited for and nobody else does,
   whatever the calls answer.
   */
  lemma {:induction false} ReleaseDisables(kept: seq<Entry>, moved: seq<Entry>, calls: seq<Call>, answers: seq<bool>, n: nat)
    requires n <= |moved|
    ensures var r := Disabled(kept, moved, calls, answers, n);
            && calls <= r && (forall t :: |calls| <= t < |r| ==> !r[t].on)
            && (forall key :: CalledFor(calls, r, key) <==> Waits(moved[..n], key) && !Waits(kept, key) && !Waits(moved[n..], key))
            && (forall t, u :: |calls| <= t < u < |r| ==> r[t].key != r[u].key)
  {
    hide Count, Waits, Answer;
    if n == 0 {
      forall key ensures !Waits(moved[..0], key) { WaitsMember(moved[..0], key); }
    } else {
      ReleaseDisables(kept, moved, calls, answers, n - 1);
      var u, r, k := Disabled(kept, moved, calls, answers, n - 1), Disabled(kept, moved, calls, answers, n), moved[n - 1].key;
      CountPositive(kept, k);
      CountPositive(moved[n..], k);
      forall key ensures Waits(moved[..n], key) <==> Waits(moved[..n - 1], key) || key == k
        ensures Waits(moved[n - 1..], key) <==> Waits(moved[n..], key) || key == k
      {
        assert moved[..n] == moved[..n - 1] + [moved[n - 1]];
        WaitsAppend(moved[..n - 1], moved[n - 1], key);
        WaitsRemove(moved[n - 1..], 0, key);
        assert moved[n - 1..][..0] + moved[n - 1..][1..] == moved[n..];
      }
      assert !CalledFor(calls, u, k);
      if Count(kept, k) + Count(moved[n..], k) == 0 {
        assert r == u + [Call(k, false, Answer(answers, n - 1))];
        CalledMore(calls, u, r[|u|]);
      }
    }
  }

  lemma {:induction false} CalledMore(calls: seq<Call>, u: seq<Call>, c: Call)
    requires calls <= u
    ensures forall key :: CalledFor(calls, u + [c], key) <==> CalledFor(calls, u, key) || key == c.key
  {
    var r := u + [c];
    assert r[|u|] == c;
    forall key ensures CalledFor(calls, r, key) <==> CalledFor(calls, u, key) || key == c.key {
      if t :| |calls| <= t < |u| && u[t].key == key {
        assert r[t].key == key;
      }
    }
  }

  /** The disable calls of this operation succeed. */
  ghost predicate DisablesWork(ev: Event) {
    (ev.DoDeregister? ==> ev.disableOk) && (ev.DoRelease? ==> forall k: nat :: Answer(ev.answers, k))
  }

  lemma {:induction false} StepKeeps(s: State, ev: Event)
    requires Good(s) && DisablesWork(ev)
    ensures Good(Step(s, ev))
  {
    hide Good, Register, Deregister, Release;
    match ev {
      case DoRegister(e, supported, enableOk) => RegisterKeeps(s, e, supported, enableOk);
      case DoDeregister(e, supported, disableOk) => DeregisterKeeps(s, e, supported);
      case DoRelease(file, answers) => ReleaseKeeps(s, file, answers);
    }
  }

  /**
   Over every sequence of registrations, deregistrations and file releases in which disable calls
   succeed: an event is enabled exactly when some entry for it remains, hardware calls are made only
   on the edges, and no file holds an entry twice.
   */
  lemma {:induction false} RunKeeps(evs: seq<Event>)
    requires forall t :: 0 <= t < |evs| ==> DisablesWork(evs[t])
    ensures Good(Run(evs))
  {
    hide Step, DisablesWork;
    if evs != [] {
      RunKeeps(evs[..|evs| - 1]);
      StepKeeps(Run(evs[..|evs| - 1]), evs[|evs| - 1]);
    }
  }

  // ---------------------------------------------------------------- with failing disable calls

  /** No file has duplicate entries, and no client waits for a disabled event. */
  ghost predicate Serves(s: State) {
    NoDuplicates(s.list) && forall key :: Waits(s.list, key) ==> key in EnabledAfter(s.calls)
  }

  lemma {:induction false} AfterCall(calls: seq<Call>, c: Call)
    ensures EnabledAfter(calls + [c]) ==
            if !c.ok then EnabledAfter(calls) else if c.on then EnabledAfter(calls) + {c.key} else EnabledAfter(calls) - {c.key}
  {
    assert (calls + [c])[..|calls|] == calls;
  }

  lemma {:induction false} RegisterServes(s: State, e: Entry, supported: bool, enableOk: bool)
    requires Serves(s)
    ensures Serves(Register(s, e, supported, enableOk).s)
  {
    hide EnabledAfter, Count, Waits;
    CountPositive(s.list, e.key);
    AfterCall(s.calls, Call(e.key, true, enableOk));
    forall key ensures Waits(s.list + [e], key) <==> Waits(s.list, key) || key == e.key {
      WaitsAppend(s.list, e, key);
    }
  }

  lemma {:induction false} DeregisterServes(s: State, e: Entry, supported: bool, disableOk: bool)
    requires Serves(s)
    ensures Serves(Deregister(s, e, supported, disableOk).s)
  {
    hide EnabledAfter, Count, Waits;
    var i := IndexOf(s.list, e);
    if supported && i != -1 {
      var rest := s.list[..i] + s.list[i + 1..];
      CountPositive(rest, e.key);
      AfterCall(s.calls, Call(e.key, false, disableOk));
      forall key ensures Waits(rest, key) ==> Waits(s.list, key) {
        WaitsRemove(s.list, i, key);
      }
    }
  }

  /** The release loop disables only events nobody in `kept` waits for. */
  lemma {:induction false} LoopServes(kept: seq<Entry>, moved: seq<Entry>, calls: seq<Call>, answers: seq<bool>, n: nat)
    requires n <= |moved| && Serves(State(kept, calls))
    ensures Serves(State(kept, Disabled(kept, moved, calls, answers, n)))
  {
    hide EnabledAfter, Count, Waits;
    if n > 0 {
      LoopServes(kept, moved, calls, answers, n - 1);
      CountPositive(kept, moved[n - 1].key);
      AfterCall(Disabled(kept, moved, calls, answers, n - 1), Call(moved[n - 1].key, false, Answer(answers, n - 1)));
    }
  }

  lemma {:induction false} ReleaseServes(s: State, file: int, answers: seq<bool>)
    requires Serves(s)
    ensures Serves(Release(s, file, answers))
  {
    hide EnabledAfter, Waits, Disabled;
    var kept := Of(s.list, file, false);
    OfMembers(s.list, file, false);
    forall key ensures Waits(kept, key) ==> Waits(s.list, key) {
      WaitsMember(s.list, key);
      WaitsMember(kept, key);
    }
    LoopServes(kept, Of(s.list, file, true), s.calls, answers, |Of(s.list, file, true)|);
  }

  /** Whatever each single enable and disable call answers, every client waits for an enabled event. */
  lemma {:induction false} RunServes(evs: seq<Event>)
    ensures Serves(Run(evs))
  {
    hide EnabledAfter, Waits, Register, Deregister, Disabled;
    if evs == [] {
      forall key ensures !Waits([], key) {
        WaitsMember([], key);
      }
    } else {
      var s, ev := Run(evs[..|evs| - 1]), evs[|evs| - 1];
      RunServes(evs[..|evs| - 1]);
      match ev {
        case DoRegister(e, supported, enableOk) => RegisterServes(s, e, supported, enableOk);
        case DoDeregister(e, supported, disableOk) => DeregisterServes(s, e, supported, disableOk);
        case DoRelease(file, answers) => ReleaseServes(s, file, answers);
      }
    }
  }

  // ---------------------------------------------------------------- the driver's list

  class EventList {
    var list: seq<Entry>
    ghost var calls: seq<Call>   // calls to the hardware layer so far

    ghost function View(): State
      reads this
    {
      State(list, calls)
    }

    /** No duplicates, and nobody waits for a disabled event. */
    ghost predicate Valid()
      reads this
    {
      Serves(View())
    }

    constructor ()
      ensures Valid() && View() == State([], [])
    {
      list, calls := [], [];
    }

    /** `msm_event_client_count` over any of the two lists. */
    static method CountClients(l: seq<Entry>, key: Key) returns (count: nat)
      ensures count == Count(l, key)
    {
      count := 0;
      for i := 0 to |l|
        invariant count == Count(l[..i], key)
      {
        assert l[..i + 1][..i] == l[..i];
        if l[i].key == key {
          count := count + 1;
        }
      }
      assert l[..|l|] == l;
    }

    /** `msm_register_event`; whether it succeeds is up to the hardware layer. */
    method CallHardware(key: Key, on: bool, ok: bool)
      modifies this`calls
      ensures calls == old(calls) + [Call(key, on, ok)]
    {
      calls := calls + [Call(key, on, ok)];
    }

    /** `msm_ioctl_register_event`: a registered client's event is enabled, a refused one leaves no entry. */
    method RegisterClient(e: Entry, supported: bool, enableOk: bool) returns (rc: Rc)
      requires Valid()
      modifies this
      ensures Valid() && (old(Good(View())) ==> Good(View()))
      ensures rc == Ok <==> supported && e !in old(list) && ((exists x :: x in old(list) && x.key == e.key) || enableOk)
      ensures rc == EUnsupported <==> !supported
      ensures rc == EAlready <==> supported && e in old(list)
      ensures rc == EFailed <==> supported && (forall x :: x in old(list) ==> x.key != e.key) && !enableOk
      ensures rc == Ok ==> list == old(list) + [e] && e.key in EnabledAfter(calls)
      ensures rc != Ok ==> list == old(list)
      ensures calls == old(calls) +
                if supported && (forall x :: x in old(list) ==> x.key != e.key) then [Call(e.key, true, enableOk)] else []
      ensures Result(View(), rc) == Register(old(View()), e, supported, enableOk)
    {
      hide EnabledAfter, EdgesOnly, Count, Waits, NoDuplicates;
      ghost var s := View();
      rc := AddClient(e, supported, enableOk);
      CountPositive(s.list, e.key);
      WaitsMember(s.list, e.key);
      RegisterServes(s, e, supported, enableOk);
      if Good(s) {
        RegisterKeeps(s, e, supported, enableOk);
      }
      if rc == Ok {
        WaitsAppend(s.list, e, e.key);
      }
    }

    /** The statements of the ioctl. */
    method AddClient(e: Entry, supported: bool, enableOk: bool) returns (rc: Rc)
      modifies this
      ensures Result(View(), rc) == Register(old(View()), e, supported, enableOk)
    {
      if !supported {
        return EUnsupported;
      }
      for i := 0 to |list|
        invariant e !in list[..i]
      {
        if list[i].file == e.file && list[i].key == e.key {
          return EAlready;
        }
      }
      assert list[..|list|] == list;
      var count := CountClients(list, e.key);
      list := list + [e];
      if count > 0 {
        return Ok;
      }
      CallHardware(e.key, true, enableOk);
      if !enableOk {
        list := list[..|list| - 1];
        return EFailed;
      }
      return Ok;
    }

    /** `msm_ioctl_deregister_event`: the entry, and no other, is gone. */
    method DeregisterClient(e: Entry, supported: bool, disableOk: bool) returns (rc: Rc)
      requires Valid()
      modifies this
      ensures Valid() && (old(Good(View())) && disableOk ==> Good(View()))
      ensures supported ==> forall x :: x in list <==> x in old(list) && x != e
      ensures rc == EUnsupported <==> !supported
      ensures rc == ENoEnt <==> supported && e !in old(list)
      ensures rc == EFailed <==> supported && e in old(list) && (forall x :: x in list ==> x.key != e.key) && !disableOk
      ensures rc == EUnsupported ==> list == old(list)
      ensures calls == old(calls) +
                if supported && e in old(list) && (forall x :: x in list ==> x.key != e.key) then [Call(e.key, false, disableOk)] else []
      ensures Result(View(), rc) == Deregister(old(View()), e, supported, disableOk)
    {
      hide EnabledAfter, EdgesOnly, Count, Waits;
      ghost var s := View();
      rc := DropClient(e, supported, disableOk);
      CountPositive(list, e.key);
      WaitsMember(list, e.key);
      DeregisterServes(s, e, supported, disableOk);
      if Good(s) && disableOk {
        DeregisterKeeps(s, e, supported);
      }
      if supported && e in s.list {
        RemoveOnly(s.list, IndexOf(s.list, e));
      }
    }

    /** The statements of the ioctl. */
    method DropClient(e: Entry, supported: bool, disableOk: bool) returns (rc: Rc)
      modifies this
      ensures Result(View(), rc) == Deregister(old(View()), e, supported, disableOk)
    {
      hide Count;
      if !supported {
        return EUnsupported;
      }
      var i := 0;
      while i < |list| && list[i] != e
        invariant 0 <= i <= |list| && e !in list[..i]
      {
        i := i + 1;
      }
      if i == |list| {
        assert list[..i] == list;
        return ENoEnt;
      }
      assert IndexOf(list, e) == i;
      hide IndexOf;
      list := list[..i] + list[i + 1..];
      var count := CountClients(list, e.key);
      if count == 0 {
        CallHardware(e.key, false, disableOk);
        return if disableOk then Ok else EFailed;
      }
      return Ok;
    }

    /** The event part of `msm_release`: the file's entries, and no others, are gone, whichever disable calls fail. */
    method ReleaseFile(file: int, answers: seq<bool>)
      requires Valid()
      modifies this
      ensures Valid() && (old(Good(View())) && (forall k: nat :: Answer(answers, k)) ==> Good(View()))
      ensures forall x :: x in list <==> x in old(list) && x.file != file
      ensures old(calls) <= calls && (forall t :: |old(calls)| <= t < |calls| ==> !calls[t].on)
      ensures forall key :: CalledFor(old(calls), calls, key) <==>
                (exists x :: x in old(list) && x.file == file && x.key == key) && !exists x :: x in list && x.key == key
      ensures forall t, u :: |old(calls)| <= t < u < |calls| ==> calls[t].key != calls[u].key
      ensures View() == Release(old(View()), file, answers)
    {
      hide EnabledAfter, EdgesOnly, Waits, NoDuplicates, Disabled, Answer;
      ghost var s := View();
      DropFile(file, answers);
      ReleaseServes(s, file, answers);
      OfMembers(s.list, file, false);
      ReleaseCalls(s, file, answers);
      if Good(s) && forall k: nat :: Answer(answers, k) {
        ReleaseKeeps(s, file, answers);
      }
    }

    /** Two loops, the second with a nested count. */
    method DropFile(file: int, answers: seq<bool>)
      modifies this
      ensures View() == Release(old(View()), file, answers)
    {
      hide Count;
      ghost var l := list;
      var kept, moved := [], [];
      for i := 0 to |list|
        invariant list == l && kept == Of(l[..i], file, false) && moved == Of(l[..i], file, true)
        invariant calls == old(calls)
      {
        assert l[..i + 1][..i] == l[..i];
        if list[i].file != file {
          kept := kept + [list[i]];
        } else {
          moved := moved + [list[i]];
        }
      }
      assert l[..|l|] == l;
      list := kept;
      for n := 0 to |moved|
        invariant list == kept && calls == Disabled(kept, moved, old(calls), answers, n)
      {
        var node := moved[n];
        var count := CountClients(list, node.key);
        var others := CountClients(moved[n + 1..], node.key);
        if count + others == 0 {
          CallHardware(node.key, false, Answer(answers, n));
        }
      }
    }
  }

  lemma {:induction false} RemoveOnly(list: seq<Entry>, i: nat)
    requires NoDuplicates(list) && i < |list|
    ensures forall x :: x in list[..i] + list[i + 1..] <==> x in list && x != list[i]
  {
    var rest := list[..i] + list[i + 1..];
    forall x ensures x in rest <==> x in list && x != list[i] {
      if x in rest {
        var j :| 0 <= j < |rest| && rest[j] == x;
        assert x == list[if j < i then j else j + 1];
      }
      if x in list && x != list[i] {
        var j :| 0 <= j < |list| && list[j] == x;
        assert x == rest[if j < i then j else j - 1];
      }
    }
  }

  lemma {:induction false} ReleaseCalls(s: State, file: int, answers: seq<bool>)
    ensures var r := Release(s, file, answers);
            && s.calls <= r.calls && (forall t :: |s.calls| <= t < |r.calls| ==> !r.calls[t].on)
            && (forall key :: CalledFor(s.calls, r.calls, key) <==>
                  (exists x :: x in s.list && x.file == file && x.key == key) && !exists x :: x in r.list && x.key == key)
            && (forall t, u :: |s.calls| <= t < u < |r.calls| ==> r.calls[t].key != r.calls[u].key)
  {
    hide Disabled, Waits, CalledFor, Of;
    var kept, moved := Of(s.list, file, false), Of(s.list, file, true);
    ReleaseDisables(kept, moved, s.calls, answers, |moved|);
    OfMembers(s.list, file, true);
    assert moved[..|moved|] == moved && moved[|moved|..] == [];
    forall key ensures Waits(moved, key) <==> exists x :: x in s.list && x.file == file && x.key == key
      ensures Waits(kept, key) <==> exists x :: x in kept && x.key == key
      ensures !Waits([], key)
    {
      WaitsMember(moved, key);
      WaitsMember(kept, key);
      WaitsMember([], key);
    }
  }
}
