/**
 Two-level power voting: client reference counts and register-bus votes in msm/sde_power_handle.c,
 and the per-file votes of msm/msm_drv.c on top of the display driver's own client.
 Regulator, clock and bus calls succeed; counters do not overflow.
 */
module PowerVotes {

  const DISABLE := 0
  const LOW := 1
  const HIGH := 3
  const VOTE_MAX := 4

  datatype Client = Client(refcount: nat, vote: nat)

  /** `sde_power_handle`: clients, the enabled use case, the register-bus vote and the resources. */
  datatype Handle = Handle(clients: seq<Client>, usecase: nat, regVote: nat, resourcesOn: bool)

  /** The highest valid client vote. */
  function MaxVote(cs: seq<Client>): nat {
    if cs == [] then DISABLE
    else
      var m := MaxVote(cs[..|cs| - 1]);
      var v := cs[|cs| - 1].vote;
      if v < VOTE_MAX && v > m then v else m
  }

  /** `_resource_changed`. */
  predicate ResourceChanged(current: nat, max: nat) {
    (current >= LOW && max == DISABLE) || (current == DISABLE && max >= LOW)
  }

  function Counted(c: Client, enable: bool): Client {
    var n := if enable then c.refcount + 1 else if c.refcount > 0 then c.refcount - 1 else 0;
    Client(n, if n > 0 then LOW else DISABLE)
  }

  /** The register-bus part of `sde_power_scale_reg_bus`. */
  function ScaledTo(h: Handle, k: nat, vote: nat): Handle
    requires k < |h.clients|
  {
    var cs := h.clients[k := h.clients[k].(vote := vote)];
    h.(clients := cs, regVote := MaxVote(cs))
  }

  function ScaleRegBus(h: Handle, k: nat, vote: nat): Handle
    requires k < |h.clients|
  {
    if h.clients[k].refcount == 0 then h else ScaledTo(h, k, vote)
  }

  function ResourceEnable(h: Handle, k: nat, enable: bool): Handle
    requires k < |h.clients|
  {
    var cs := h.clients[k := Counted(h.clients[k], enable)];
    var max := MaxVote(cs);
    if !ResourceChanged(h.usecase, max) then h.(clients := cs)
    else ScaledTo(h.(clients := cs, usecase := max, resourcesOn := enable), k, max)
  }

  // ---------------------------------------------------------------- what the votes mean

  ghost predicate Holds(h: Handle, k: int) { 0 <= k < |h.clients| && h.clients[k].refcount > 0 }

  ghost predicate ClientOk(c: Client) {
    c.vote <= HIGH && (c.refcount > 0 <==> c.vote >= LOW)
  }

  /**
   The resources are on exactly when some client holds a reference; the register-bus vote is never
   below any client's vote and is DISABLE exactly when the resources are off.
   */
  ghost predicate Good(h: Handle) {
    && (forall k :: 0 <= k < |h.clients| ==> ClientOk(h.clients[k]) && h.clients[k].vote <= h.regVote)
    && (h.resourcesOn <==> exists k :: Holds(h, k))
    && (h.usecase >= LOW <==> h.resourcesOn)
    && (h.regVote == DISABLE <==> !h.resourcesOn)
  }

  lemma {:induction false} MaxVoteIsMax(cs: seq<Client>)
    requires forall k :: 0 <= k < |cs| ==> ClientOk(cs[k])
    ensures MaxVote(cs) <= HIGH && forall k :: 0 <= k < |cs| ==> cs[k].vote <= MaxVote(cs)
    ensures MaxVote(cs) == DISABLE || exists k :: 0 <= k < |cs| && cs[k].vote == MaxVote(cs)
  {
    if cs != [] {
      var n := |cs| - 1;
      MaxVoteIsMax(cs[..n]);
      forall k | 0 <= k < |cs| ensures cs[k].vote <= MaxVote(cs) {
        if k < n {
          assert cs[..n][k] == cs[k];
        }
      }
      if MaxVote(cs) != DISABLE && MaxVote(cs) != cs[n].vote {
        var k :| 0 <= k < n && cs[..n][k].vote == MaxVote(cs[..n]);
        assert cs[k].vote == MaxVote(cs);
      }
    }
  }

  lemma {:induction false} SomeoneHolds(h: Handle)
    requires forall k :: 0 <= k < |h.clients| ==> ClientOk(h.clients[k])
    ensures MaxVote(h.clients) >= LOW <==> exists k :: Holds(h, k)
  {
    MaxVoteIsMax(h.clients);
    if MaxVote(h.clients) >= LOW {
      var k :| 0 <= k < |h.clients| && h.clients[k].vote == MaxVote(h.clients);
      assert Holds(h, k);
    }
  }

  lemma {:induction false} EnableKeeps(h: Handle, k: nat, enable: bool)
    requires Good(h) && k < |h.clients|
    ensures Good(ResourceEnable(h, k, enable)) && |ResourceEnable(h, k, enable).clients| == |h.clients|
    ensures ResourceEnable(h, k, enable).clients[k].refcount == Counted(h.clients[k], enable).refcount
    ensures forall j :: 0 <= j < |h.clients| && j != k ==> ResourceEnable(h, k, enable).clients[j] == h.clients[j]
  {
    hide MaxVote;
    var cs := h.clients[k := Counted(h.clients[k], enable)];
    var h1 := h.(clients := cs);
    var max := MaxVote(cs);
    SomeoneHolds(h1);
    MaxVoteIsMax(cs);
    if enable {
      assert Holds(h1, k);
    }
    if !ResourceChanged(h.usecase, max) {
      assert h.resourcesOn <==> exists j :: Holds(h1, j);
    } else {
      var r := ResourceEnable(h, k, enable);
      assert r.clients == cs[k := cs[k].(vote := max)];
      ChangeDirection(h, k, enable);
      assert cs[k].vote == max;
      assert r.clients == cs;
      assert forall j :: Holds(r, j) <==> Holds(h1, j);
    }
  }

  /** The resources change only on the first reference taken or the last one dropped, in that direction. */
  lemma {:induction false} ChangeDirection(h: Handle, k: nat, enable: bool)
    requires Good(h) && k < |h.clients|
    ensures var c := Counted(h.clients[k], enable); var cs := h.clients[k := c]; var max := MaxVote(cs);
            ResourceChanged(h.usecase, max) ==>
              && (max >= LOW <==> enable) && c.vote == max
              && (forall j :: 0 <= j < |h.clients| && j != k ==> h.clients[j].refcount == 0)
  {
    hide MaxVote;
    var c := Counted(h.clients[k], enable);
    var cs := h.clients[k := c];
    var max := MaxVote(cs);
    MaxVoteIsMax(cs);
    SomeoneHolds(h.(clients := cs));
    assert ClientOk(c) && cs[k] == c && forall j :: 0 <= j < |cs| && j != k ==> cs[j] == h.clients[j];
    if ResourceChanged(h.usecase, max) {
      if max == DISABLE {
        forall j | 0 <= j < |cs| ensures cs[j].refcount == 0 && cs[j].vote == DISABLE {
          assert ClientOk(cs[j]) && cs[j].vote <= max;
        }
        assert c.refcount == 0;
      } else {
        forall j | 0 <= j < |h.clients| ensures h.clients[j].refcount == 0 && h.clients[j].vote == DISABLE {
          assert !Holds(h, j) && ClientOk(h.clients[j]);
        }
        var j :| 0 <= j < |cs| && cs[j].vote == max;
        assert j == k;
      }
    }
  }

  lemma {:induction false} ScaleKeeps(h: Handle, k: nat, vote: nat)
    requires Good(h) && k < |h.clients| && LOW <= vote <= HIGH
    ensures Good(ScaleRegBus(h, k, vote)) && |ScaleRegBus(h, k, vote).clients| == |h.clients|
    ensures forall j :: 0 <= j < |h.clients| ==> ScaleRegBus(h, k, vote).clients[j].refcount == h.clients[j].refcount
  {
    hide MaxVote;
    if h.clients[k].refcount > 0 {
      var r := ScaledTo(h, k, vote);
      MaxVoteIsMax(r.clients);
      SomeoneHolds(r);
      assert Holds(h, k) && Holds(r, k);
    }
  }

  /** `v` is the highest of the valid votes, or DISABLE without one. */
  ghost predicate IsHighest(cs: seq<Client>, v: nat) {
    && (forall k :: 0 <= k < |cs| && cs[k].vote < VOTE_MAX ==> cs[k].vote <= v)
    && (v == DISABLE || exists k :: 0 <= k < |cs| && cs[k].vote == v)
    && v < VOTE_MAX
  }

  lemma {:induction false} MaxIsHighest(cs: seq<Client>)
    ensures IsHighest(cs, MaxVote(cs))
  {
    if cs != [] {
      var n := |cs| - 1;
      MaxIsHighest(cs[..n]);
      assert forall j :: 0 <= j < n ==> cs[..n][j] == cs[j];
      if MaxVote(cs) != DISABLE && MaxVote(cs) != cs[n].vote {
        var k :| 0 <= k < n && cs[..n][k].vote == MaxVote(cs[..n]);
        assert cs[k].vote == MaxVote(cs);
      }
    }
  }

  /** An enable or disable that switches the resources votes the highest vote, and no other one votes. */
  lemma {:induction false} EnableBusVote(h: Handle, k: nat, enable: bool)
    requires Good(h) && k < |h.clients|
    ensures var r := ResourceEnable(h, k, enable);
            && (r.resourcesOn != h.resourcesOn ==> IsHighest(r.clients, r.regVote) && r.usecase == r.regVote)
            && (r.resourcesOn == h.resourcesOn ==> r.regVote == h.regVote && r.usecase == h.usecase)
            && r.clients[k].vote == if r.clients[k].refcount > 0 then LOW else DISABLE
  {
    hide MaxVote, IsHighest;
    EnableKeeps(h, k, enable);
    ChangeDirection(h, k, enable);
    var r := ResourceEnable(h, k, enable);
    var cs := h.clients[k := Counted(h.clients[k], enable)];
    MaxIsHighest(r.clients);
    if ResourceChanged(h.usecase, MaxVote(cs)) {
      assert r.clients == cs;
    }
  }

  function AddClient(h: Handle): Handle { h.(clients := h.clients + [Client(0, DISABLE)]) }

  function RemoveClient(h: Handle, k: nat): Handle
    requires k < |h.clients|
  {
    h.(clients := h.clients[..k] + h.clients[k + 1..])
  }

  lemma {:induction false} AddKeeps(h: Handle)
    requires Good(h)
    ensures Good(AddClient(h))
  {
    var r := AddClient(h);
    assert forall k :: Holds(r, k) <==> Holds(h, k);
  }

  /** Destroying a client never drops its references, so it is harmless only if they were not the last ones. */
  lemma {:induction false} DestroyKeepsIff(h: Handle, k: nat)
    requires Good(h) && k < |h.clients|
    ensures Good(RemoveClient(h, k)) <==> h.clients[k].refcount == 0 || exists j :: j != k && Holds(h, j)
  {
    var r := RemoveClient(h, k);
    assert forall j :: 0 <= j < |r.clients| ==> r.clients[j] == h.clients[if j < k then j else j + 1];
    if exists j :: j != k && Holds(h, j) {
      var j :| j != k && Holds(h, j);
      assert Holds(r, if j < k then j else j - 1);
    }
    if exists j :: Holds(r, j) {
      var j :| Holds(r, j);
      var j' := if j < k then j else j + 1;
      assert j' != k && Holds(h, j');
    }
    if h.clients[k].refcount > 0 {
      assert Holds(h, k);
    }
  }

  // ---------------------------------------------------------------- per-file votes

  /**
   `files` holds the `enable_refcnt` of every open file; `direct` counts the references the driver
   itself holds on its client, which is client 0.
   */
  datatype System = System(handle: Handle, files: seq<nat>, direct: nat)

  function Voting(files: seq<nat>): nat {
    if files == [] then 0 else Voting(files[..|files| - 1]) + if files[|files| - 1] > 0 then 1 else 0
  }

  function PowerCtrl(s: System, f: nat, enable: bool): System
    requires f < |s.files| && |s.handle.clients| > 0
  {
    var n := s.files[f];
    if enable then
      System(if n == 0 then ResourceEnable(s.handle, 0, true) else s.handle, s.files[f := n + 1], s.direct)
    else if n > 0 then
      System(if n == 1 then ResourceEnable(s.handle, 0, false) else s.handle, s.files[f := n - 1], s.direct)
    else s
  }

  function CloseFile(s: System, f: nat): System
    requires f < |s.files| && |s.handle.clients| > 0
  {
    System(if s.files[f] > 0 then ResourceEnable(s.handle, 0, false) else s.handle,
           s.files[..f] + s.files[f + 1..], s.direct)
  }

  datatype Event =
    | Ctrl(f: nat, enable: bool)     // msm_ioctl_power_ctrl
    | Open
    | Close(f: nat)                  // msm_postclose
    | Direct(enable: bool)           // the driver's own references on its client
    | Vote(k: nat, enable: bool)     // other clients
    | Scale(k: nat, vote: nat)
    | Create
    | Destroy(k: nat)

  /** Scale requests are between LOW and HIGH, the driver's own references balance, clients die idle. */
  predicate Regular(s: System, e: Event) {
    match e
    case Ctrl(f, enable) => f < |s.files|
    case Close(f) => f < |s.files|
    case Direct(enable) => !enable ==> s.direct > 0
    case Vote(k, enable) => 0 < k < |s.handle.clients|
    case Scale(k, vote) => k < |s.handle.clients| && LOW <= vote <= HIGH
    case Destroy(k) => 0 < k < |s.handle.clients| && s.handle.clients[k].refcount == 0
    case _ => true
  }

  function Step(s: System, e: Event): (r: System)
    requires Regular(s, e) && |s.handle.clients| > 0
    ensures |r.handle.clients| > 0
  {
    match e
    case Ctrl(f, enable) => PowerCtrl(s, f, enable)
    case Open => s.(files := s.files + [0])
    case Close(f) => CloseFile(s, f)
    case Direct(enable) =>
      s.(handle := ResourceEnable(s.handle, 0, enable), direct := if enable then s.direct + 1 else s.direct - 1)
    case Vote(k, enable) => s.(handle := ResourceEnable(s.handle, k, enable))
    case Scale(k, vote) => s.(handle := ScaleRegBus(s.handle, k, vote))
    case Create => s.(handle := AddClient(s.handle))
    case Destroy(k) => s.(handle := RemoveClient(s.handle, k))
  }

  const Booted := System(Handle([Client(0, DISABLE)], DISABLE, DISABLE, false), [], 0)

  ghost predicate Sound(s: System) {
    && |s.handle.clients| > 0 && Good(s.handle)
    && s.handle.clients[0].refcount == s.direct + Voting(s.files)
  }

  lemma {:induction false} VotingUpdate(files: seq<nat>, f: nat, n: nat)
    requires f < |files|
    ensures Voting(files[f := n]) == Voting(files) - (if files[f] > 0 then 1 else 0) + (if n > 0 then 1 else 0)
  {
    var l := |files| - 1;
    if f == l {
      assert files[f := n][..l] == files[..l];
    } else {
      assert files[f := n][..l] == files[..l][f := n];
      VotingUpdate(files[..l], f, n);
    }
  }

  lemma {:induction false} VotingRemove(files: seq<nat>, f: nat)
    requires f < |files|
    ensures Voting(files[..f] + files[f + 1..]) == Voting(files) - if files[f] > 0 then 1 else 0
  {
    var l := |files| - 1;
    if f == l {
      assert files[..f] + files[f + 1..] == files[..l];
    } else {
      var rest := files[..f] + files[f + 1..];
      assert rest[..|rest| - 1] == files[..l][..f] + files[..l][f + 1..];
      VotingRemove(files[..l], f);
    }
  }

  lemma {:induction false} StepKeeps(s: System, e: Event)
    requires Sound(s) && Regular(s, e)
    ensures Sound(Step(s, e))
  {
    hide Good, ResourceEnable, ScaleRegBus, Voting;
    match e {
      case Ctrl(f, enable) =>
        EnableKeeps(s.handle, 0, enable);
        VotingUpdate(s.files, f, s.files[f] + 1);
        if s.files[f] > 0 { VotingUpdate(s.files, f, s.files[f] - 1); }
      case Open =>
        VotingAppend(s.files);
      case Close(f) =>
        EnableKeeps(s.handle, 0, false);
        VotingRemove(s.files, f);
      case Direct(enable) => EnableKeeps(s.handle, 0, enable);
      case Vote(k, enable) => EnableKeeps(s.handle, k, enable);
      case Scale(k, vote) => ScaleKeeps(s.handle, k, vote);
      case Create => AddKeeps(s.handle);
      case Destroy(k) => DestroyKeepsIff(s.handle, k);
    }
  }

  lemma {:induction false} VotingAppend(files: seq<nat>)
    ensures Voting(files + [0]) == Voting(files)
  {
    assert (files + [0])[..|files|] == files;
  }

  /** Any run: events that are not regular do not happen. */
  function Run(es: seq<Event>): (s: System)
    ensures |s.handle.clients| > 0
  {
    if es == [] then Booted
    else
      var s := Run(es[..|es| - 1]);
      var e := es[|es| - 1];
      if Regular(s, e) then Step(s, e) else s
  }

  /** The vote properties over every run of regular events. */
  lemma {:induction false} RunKeeps(es: seq<Event>)
    ensures Sound(Run(es))
  {
    hide Step;
    if es != [] {
      RunKeeps(es[..|es| - 1]);
      var s, e := Run(es[..|es| - 1]), es[|es| - 1];
      if Regular(s, e) {
        StepKeeps(s, e);
      }
    }
  }

  /** The events that vote on the register bus: an accepted scale, and whatever switches the resources. */
  ghost predicate BusCall(s: System, e: Event, after: System) {
    (e.Scale? && e.k < |s.handle.clients| && s.handle.clients[e.k].refcount > 0) ||
    s.handle.resourcesOn != after.handle.resourcesOn
  }

  lemma {:induction false} StepBusVote(s: System, e: Event)
    requires Sound(s) && Regular(s, e)
    ensures var r := Step(s, e);
            && (BusCall(s, e, r) ==> IsHighest(r.handle.clients, r.handle.regVote))
            && (!BusCall(s, e, r) ==> r.handle.regVote == s.handle.regVote)
  {
    hide ResourceEnable, Good, IsHighest, MaxVote;
    match e {
      case Ctrl(f, enable) => EnableBusVote(s.handle, 0, enable);
      case Close(f) => EnableBusVote(s.handle, 0, false);
      case Direct(enable) => EnableBusVote(s.handle, 0, enable);
      case Vote(k, enable) => EnableBusVote(s.handle, k, enable);
      case Scale(k, vote) => MaxIsHighest(ScaleRegBus(s.handle, k, vote).clients);
      case _ =>
    }
  }

  ghost predicate BusCallAt(es: seq<Event>, m: nat)
    requires m < |es|
  {
    Regular(Run(es[..m]), es[m]) && BusCall(Run(es[..m]), es[m], Run(es[..m + 1]))
  }

  /** The `n`-th state of the run is the one after its last bus call, or the first if there was none. */
  ghost predicate LastBusCall(es: seq<Event>, n: nat)
    requires n <= |es|
  {
    (n > 0 ==> BusCallAt(es, n - 1)) && forall m :: n <= m < |es| ==> !BusCallAt(es, m)
  }

  /** Over every run the register-bus vote is the highest client vote as of the last bus call. */
  lemma {:induction false} RunBusVote(es: seq<Event>)
    ensures exists n :: 0 <= n <= |es| && LastBusCall(es, n) && IsHighest(Run(es[..n]).handle.clients, Run(es).handle.regVote)
  {
    if es == [] {
      assert es[..0] == [];
      assert LastBusCall(es, 0) && IsHighest(Run(es[..0]).handle.clients, Run(es).handle.regVote);
    } else {
      var k := |es| - 1;
      var s, e := Run(es[..k]), es[k];
      RunKeeps(es[..k]);
      assert es[..|es|] == es;
      hide Step, IsHighest, BusCall, Sound;
      if Regular(s, e) {
        StepBusVote(s, e);
      }
      if BusCallAt(es, k) {
        assert LastBusCall(es, |es|);
      } else {
        RunBusVote(es[..k]);
        var n :| 0 <= n <= k && LastBusCall(es[..k], n) && IsHighest(Run(es[..k][..n]).handle.clients, s.handle.regVote);
        assert es[..k][..n] == es[..n];
        LastBusCallStays(es, n);
      }
    }
  }

  lemma {:induction false} BusCallPrefix(es: seq<Event>, k: nat, m: nat)
    requires m < k <= |es|
    ensures BusCallAt(es[..k], m) <==> BusCallAt(es, m)
  {
    assert es[..k][..m] == es[..m] && es[..k][..m + 1] == es[..m + 1] && es[..k][m] == es[m];
  }

  lemma {:induction false} LastBusCallStays(es: seq<Event>, n: nat)
    requires es != [] && n <= |es| - 1 && LastBusCall(es[..|es| - 1], n) && !BusCallAt(es, |es| - 1)
    ensures LastBusCall(es, n)
  {
    hide BusCallAt;
    var k := |es| - 1;
    forall m | 0 <= m < k ensures BusCallAt(es[..k], m) <==> BusCallAt(es, m) {
      BusCallPrefix(es, k, m);
    }
  }

  // ---------------------------------------------------------------- the driver's objects

  class PowerHandle {
    var clients: seq<Client>
    var usecase: nat
    var regVote: nat
    var resourcesOn: bool

    ghost function View(): Handle
      reads this
    {
      Handle(clients, usecase, regVote, resourcesOn)
    }

    /** Resources follow the references and the register bus covers every vote. */
    ghost predicate Valid()
      reads this
    {
      Good(View())
    }

    constructor ()
      ensures View() == Booted.handle && Valid()
    {
      clients, usecase, regVote, resourcesOn := [Client(0, DISABLE)], DISABLE, DISABLE, false;
    }

    /** The client-list loop both functions share. */
    method MaxUsecase() returns (max: nat)
      ensures max == MaxVote(clients)
    {
      max := DISABLE;
      for i := 0 to |clients|
        invariant max == MaxVote(clients[..i])
      {
        assert clients[..i + 1][..i] == clients[..i];
        if clients[i].vote < VOTE_MAX && clients[i].vote > max {
          max := clients[i].vote;
        }
      }
      assert clients[..|clients|] == clients;
    }

    /** `sde_power_scale_reg_bus`; with `inEnable` it runs inside `sde_power_resource_enable`. */
    method Scale(k: nat, vote: nat, inEnable: bool) returns (ok: bool)
      requires k < |clients|
      modifies this`clients, this`regVote
      ensures ok <==> inEnable || old(clients[k]).refcount > 0
      ensures !ok ==> View() == old(View())
      ensures ok ==> clients == old(clients)[k := old(clients)[k].(vote := vote)]
      ensures ok ==> IsHighest(clients, regVote)
      ensures old(Valid()) && !inEnable && LOW <= vote <= HIGH ==> Valid()
      ensures View() == if inEnable then ScaledTo(old(View()), k, vote) else ScaleRegBus(old(View()), k, vote)
    {
      hide MaxVote, Good;
      ghost var h := View();
      if !inEnable && clients[k].refcount == 0 {
        return false;
      }
      clients := clients[k := clients[k].(vote := vote)];
      regVote := MaxUsecase();
      MaxIsHighest(clients);
      hide IsHighest;
      if Good(h) && !inEnable && LOW <= vote <= HIGH {
        ScaleKeeps(h, k, vote);
      }
      return true;
    }

    /** The statements of `sde_power_resource_enable` with succeeding resource calls. */
    method SetReference(k: nat, enable: bool)
      requires k < |clients|
      modifies this
      ensures View() == ResourceEnable(old(View()), k, enable)
    {
      hide MaxVote, Good;
      var n := clients[k].refcount;
      if enable {
        n := n + 1;
      } else if n != 0 {
        n := n - 1;
      }
      clients := clients[k := Client(n, if n != 0 then LOW else DISABLE)];
      var max := MaxUsecase();
      if !ResourceChanged(usecase, max) {
        return;
      }
      usecase := max;
      if enable {
        var ok := Scale(k, max, true);
        resourcesOn := true;
      } else {
        var ok := Scale(k, max, true);
        resourcesOn := false;
      }
    }

    /** `sde_power_resource_enable`: only client `k` moves; the resources switch on its first and everyone's last reference. */
    method Enable(k: nat, enable: bool)
      requires Valid() && k < |clients|
      modifies this
      ensures Valid()
      ensures |clients| == |old(clients)|
      ensures forall j :: 0 <= j < |clients| && j != k ==> clients[j] == old(clients)[j]
      ensures enable ==> resourcesOn && clients[k].refcount == old(clients)[k].refcount + 1
      ensures !enable && old(clients)[k].refcount > 0 ==> clients[k].refcount == old(clients)[k].refcount - 1
      ensures !enable && old(clients)[k].refcount == 0 ==> clients[k].refcount == 0
      ensures resourcesOn != old(resourcesOn) ==>
                clients[k].refcount + old(clients)[k].refcount == 1 &&
                forall j :: 0 <= j < |clients| && j != k ==> clients[j].refcount == 0
      ensures resourcesOn != old(resourcesOn) ==> IsHighest(clients, regVote) && usecase == regVote
      ensures resourcesOn == old(resourcesOn) ==> regVote == old(regVote) && usecase == old(usecase)
      ensures clients[k].vote == if clients[k].refcount > 0 then LOW else DISABLE
      ensures View() == ResourceEnable(old(View()), k, enable)
    {
      ghost var h := View();
      SetReference(k, enable);
      EnableKeeps(h, k, enable);
      EnableBusVote(h, k, enable);
      EnableMeaning(h, k, enable);
      hide Good, ResourceEnable, IsHighest;
    }
  }

  lemma {:induction false} EnableMeaning(h: Handle, k: nat, enable: bool)
    requires Good(h) && k < |h.clients|
    ensures var r := ResourceEnable(h, k, enable);
            && (enable ==> r.resourcesOn)
            && (r.resourcesOn != h.resourcesOn ==>
                  && r.clients[k].refcount + h.clients[k].refcount == 1
                  && forall j :: 0 <= j < |h.clients| && j != k ==> h.clients[j].refcount == 0)
  {
    hide MaxVote;
    EnableKeeps(h, k, enable);
    ChangeDirection(h, k, enable);
    var r := ResourceEnable(h, k, enable);
    if enable {
      assert Holds(r, k);
    }
    if r.resourcesOn != h.resourcesOn {
      assert forall j :: j != k ==> !Holds(h, j) && !Holds(r, j);
      assert Holds(h, k) != Holds(r, k);
    }
  }

  /** The open files and the driver's power handle; client 0 is `priv->pclient`. */
  class DrmPower {
    const handle: PowerHandle
    var files: seq<nat>
    ghost var direct: nat

    ghost function View(): System
      reads this, handle
    {
      System(handle.View(), files, direct)
    }

    /** The handle is good and the driver's client has one reference per voting file beside its own. */
    ghost predicate Valid()
      reads this, handle
    {
      Sound(View())
    }

    constructor (h: PowerHandle)
      requires h.View() == Booted.handle
      ensures Valid() && handle == h && files == [] && direct == 0
    {
      handle, files, direct := h, [], 0;
    }

    /** `msm_ioctl_power_ctrl`: the file's own count moves, and a file with a positive count has power. */
    method Ioctl(f: nat, enable: bool)
      requires Valid() && f < |files|
      modifies this`files, handle
      ensures Valid()
      ensures files == old(files)[f := if enable then old(files)[f] + 1 else if old(files)[f] > 0 then old(files)[f] - 1 else 0]
      ensures |handle.clients| > 0 && handle.clients[0].refcount == direct + Voting(files)
      ensures forall g :: 0 <= g < |files| && files[g] > 0 ==> handle.resourcesOn
      ensures View() == PowerCtrl(old(View()), f, enable)
    {
      hide ResourceEnable, Good, Voting;
      ghost var s := View();
      var request := false;
      if enable {
        if files[f] == 0 {
          request := true;
        }
        files := files[f := files[f] + 1];
      } else if files[f] != 0 {
        files := files[f := files[f] - 1];
        if files[f] == 0 {
          request := true;
        }
      }
      if request {
        handle.Enable(0, enable);
      }
      StepKeeps(s, Ctrl(f, enable));
      VotersHavePower(View());
    }

    /** The vote part of `msm_postclose`: the file gives back its one reference, if it holds one. */
    method PostClose(f: nat)
      requires Valid() && f < |files|
      modifies this`files, handle
      ensures Valid()
      ensures files == old(files)[..f] + old(files)[f + 1..]
      ensures |handle.clients| > 0 && handle.clients[0].refcount == direct + Voting(files)
      ensures forall g :: 0 <= g < |files| && files[g] > 0 ==> handle.resourcesOn
      ensures View() == CloseFile(old(View()), f)
    {
      hide ResourceEnable, Good, Voting;
      ghost var s := View();
      if files[f] != 0 {
        handle.Enable(0, false);
      }
      files := files[..f] + files[f + 1..];
      StepKeeps(s, Close(f));
      VotersHavePower(View());
    }
  }

  lemma {:induction false} VotingPositive(files: seq<nat>, g: nat)
    requires g < |files| && files[g] > 0
    ensures Voting(files) > 0
  {
    if g < |files| - 1 {
      VotingPositive(files[..|files| - 1], g);
    }
  }

  /** A file that voted for power has it, whatever the other files and clients do. */
  lemma {:induction false} VotersHavePower(s: System)
    requires Sound(s)
    ensures forall g :: 0 <= g < |s.files| && s.files[g] > 0 ==> s.handle.resourcesOn
  {
    forall g | 0 <= g < |s.files| && s.files[g] > 0 ensures s.handle.resourcesOn {
      VotingPositive(s.files, g);
      assert Holds(s.handle, 0);
    }
  }
}
