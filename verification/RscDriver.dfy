/**
 The RSC driver's in-place form: `struct sde_rsc_priv` and the functions that change it
 (msm/sde_rsc.c, msm/sde_rsc_hw.c, msm/sde_rsc_hw_v3.c). Its invariant holds the v3 safety claim and
 the clock references; every API call keeps it and says what it means for votes, state and references.
 */
module RscDriver {
  import opened RscCoordinator

  class RscPriv {
    const v3: bool
    var current: State
    var clients: seq<Client>
    var primary: int
    var nextId: nat
    var powerCollapse: bool
    var collapseBlock: bool
    var swFs: bool
    var vsyncWait: nat
    var refcount: nat
    var usecaseOn: bool
    var clocksOn: bool
    var needHwInit: bool
    var bound: bool

    ghost function Votes_(): Ballot
      reads this
    {
      Ballot(v3, current, clients, primary, nextId)
    }

    ghost function Core_(): Core
      reads this
    {
      Core(powerCollapse, collapseBlock, swFs, vsyncWait)
    }

    ghost function Power_(): Power
      reads this
    {
      Power(refcount, usecaseOn, clocksOn)
    }

    ghost function View(): Rsc
      reads this
    {
      Rsc(Votes_(), Core_(), Power_(), needHwInit, bound)
    }

    /** Clients are told apart by their ids; a v3 coordinator is safe; no state lacks its reference. */
    ghost predicate Valid()
      reads this
    {
      && bound && IdsOk(Votes_())
      && (v3 ==> SafeV3(View()))
      && Excess(View()) >= 0
    }

    constructor (useV3: bool)
      ensures View() == Probed(useV3) && Valid()
    {
      v3, current, clients, primary, nextId := useV3, Idle, [], NoClient, 0;
      powerCollapse, collapseBlock, swFs, vsyncWait := false, false, true, 0;
      refcount, usecaseOn, clocksOn, needHwInit, bound := 0, false, false, false, true;
    }

    method EnableClk(enable: bool, s: Supply) returns (ok: bool)
      modifies this`refcount, this`usecaseOn, this`clocksOn
      ensures old(ClocksMatch(Power_())) && SupplyFine(s) ==> ok && ClocksMatch(Power_())
      ensures Clocked(Power_(), ok) == ClkEnable(old(Power_()), enable, s)
    {
      if enable {
        refcount := refcount + 1;
      } else if refcount != 0 {
        refcount := refcount - 1;
      }
      var want := refcount != 0;
      if usecaseOn == want {
        return true;
      }
      if enable {
        if !s.vregOk {
          return false;
        }
        if !s.clkOk {
          return false;  // the regulator is switched off again
        }
        clocksOn := true;
      } else {
        clocksOn := false;
        if !s.vregOk {
          return false;
        }
      }
      usecaseOn := want;
      ok := true;
    }

    method InitHw(hw: Hw)
      modifies this`refcount, this`usecaseOn, this`clocksOn, this`swFs
      ensures Power_() == HwInitPower(old(Power_()), hw)
      ensures swFs == (old(swFs) || hw.regulatorOk)
    {
      if !hw.regulatorOk {
        return;
      }
      swFs := true;
      var ok := EnableClk(true, hw.initOn);
      if !ok || !hw.initOk {
        return;
      }
      ok := EnableClk(false, hw.initOff);
    }

    /** Mode-2 entry with its retry loop. */
    method EnterMode2(hw: Hw) returns (rc: Rc)
      modifies this`swFs
      ensures rc == Zero <==> !collapseBlock && (old(swFs) ==> hw.fastModeOk) && hw.entryFailures <= 3
      ensures swFs <==> old(swFs) && rc != Zero
      ensures Switched(Core_(), rc) == Mode2Entry(old(Core_()), hw)
    {
      if collapseBlock {
        return EInval;
      }
      if swFs && !hw.fastModeOk {
        return ERegulator;
      }
      rc := EBusy;
      var i := 0;
      while i <= MAX_MODE2_ENTRY_TRY
        invariant 0 <= i <= MAX_MODE2_ENTRY_TRY + 1 && rc == EBusy && i <= hw.entryFailures
        decreases MAX_MODE2_ENTRY_TRY + 1 - i
      {
        if i >= hw.entryFailures {
          rc := Zero;
          break;
        }
        i := i + 1;
      }
      if rc == Zero {
        swFs := false;
      }
    }

    method UpdateHw(target: State, hw: Hw) returns (rc: Rc)
      modifies this`powerCollapse, this`swFs
      ensures powerCollapse <==> (old(powerCollapse) && !hw.exitOk) || (target == Idle && rc == Zero)
      ensures Switched(Core_(), rc) == StateUpdate(old(Core_()), target, hw)
    {
      rc := Zero;
      if powerCollapse {
        if hw.exitOk {
          powerCollapse := false;
        } else {
          rc := EBusy;
        }
      }
      if target == Idle {
        rc := EnterMode2(hw);
        if rc == Zero {
          powerCollapse := true;
        }
      }
    }

    /** The loop over the client list that raises the four flags. */
    method ScanClients() returns (multi: bool, clk: bool, vid: bool, cmd: bool)
      ensures multi == ExternalClk(clients) && clk == ClkVote(clients)
      ensures vid == RscCoordinator.Votes(clients, Vid) && cmd == RscCoordinator.Votes(clients, Cmd)
    {
      multi, clk, vid, cmd := false, false, false, false;
      for i := 0 to |clients|
        invariant multi <==> exists j :: 0 <= j < i && External(clients[j])
        invariant clk <==> exists j :: 0 <= j < i && clients[j].state == Clk && clients[j].kind == ClkClient
        invariant vid <==> exists j :: 0 <= j < i && clients[j].state == Vid
        invariant cmd <==> exists j :: 0 <= j < i && clients[j].state == Cmd
      {
        var c := clients[i];
        if c.state == Clk && c.kind == ExternalDisp {
          assert External(clients[i]);
          multi := true;
        } else if c.state == Clk && c.kind == ClkClient {
          clk := true;
        } else if c.state == Vid {
          vid := true;
        } else if c.state == Cmd {
          cmd := true;
        }
      }
    }

    method WaitVsync(rc0: Rc, leaving: bool, canWait: bool, hw: Hw) returns (rc: Rc)
      modifies this`vsyncWait
      ensures rc0 != Zero && rc == Zero <==> rc0 != Zero && old(vsyncWait) > 0 && hw.vsyncOk
      ensures Switched(Core_(), rc) == VsyncTail(Votes_(), Switched(old(Core_()), rc0), leaving, canWait, hw)
    {
      rc := rc0;
      if rc == Zero && primary != NoClient && leaving {
        if canWait {
          vsyncWait := vsyncWait + 1;
        }
      } else if vsyncWait != 0 {
        if hw.vsyncOk {
          vsyncWait := 0;
          rc := Zero;
        } else {
          rc := ETimedOut;
        }
      }
    }

    method ToCmd(caller: int, hw: Hw) returns (rc: Rc)
      modifies this`powerCollapse, this`swFs
      ensures Switched(Core_(), rc) == if v3 then SwitchToCmdV3(Votes_(), old(Core_()), caller, hw)
                                             else SwitchToCmdV2(Votes_(), old(Core_()), caller, hw)
    {
      hide StateUpdate;
      if primary == NoClient || caller != primary {
        return EInval;
      }
      if current == Cmd {
        return Zero;
      }
      var multi, clk, vid, cmd := ScanClients();
      if (v3 && multi) || (!v3 && vid) {
        return NotAllowed;
      }
      rc := UpdateHw(Cmd, hw);
    }

    method ToVid(caller: int, canWait: bool, hw: Hw) returns (rc: Rc)
      modifies this`powerCollapse, this`swFs, this`vsyncWait
      ensures Switched(Core_(), rc) == if v3 then SwitchToVidV3(Votes_(), old(Core_()), caller, hw)
                                             else SwitchToVidV2(Votes_(), old(Core_()), canWait, hw)
    {
      hide StateUpdate, VsyncTail;
      if v3 {
        if primary == NoClient || caller != primary {
          return EInval;
        }
        if current == Vid {
          return Zero;
        }
        var multi, clk, vid, cmd := ScanClients();
        if multi {
          return NotAllowed;
        }
        rc := UpdateHw(Vid, hw);
      } else {
        if current == Vid {
          return Zero;
        }
        rc := UpdateHw(Vid, hw);
        rc := WaitVsync(rc, current == Cmd, canWait, hw);
      }
    }

    method ToClk(canWait: bool, hw: Hw) returns (rc: Rc)
      modifies this`powerCollapse, this`swFs, this`vsyncWait
      ensures Switched(Core_(), rc) == if v3 then SwitchToClkV3(Votes_(), old(Core_()), canWait, hw)
                                             else SwitchToClkV2(Votes_(), old(Core_()), canWait, hw)
    {
      hide StateUpdate, VsyncTail;
      var multi, clk, vid, cmd := ScanClients();
      if (vid || cmd) && !(v3 && multi) {
        return NotAllowed;
      }
      rc := UpdateHw(Clk, hw);
      rc := WaitVsync(rc, current == Cmd || (v3 && current == Vid), canWait, hw);
    }

    method ToIdle(canWait: bool, hw: Hw) returns (rc: Rc)
      modifies this`powerCollapse, this`swFs, this`vsyncWait
      ensures Switched(Core_(), rc) == if v3 then SwitchToIdleV3(Votes_(), old(Core_()), canWait, hw)
                                             else SwitchToIdleV2(Votes_(), old(Core_()), canWait, hw)
    {
      hide StateUpdate, SwitchToCmdV2, SwitchToCmdV3, SwitchToVidV3, SwitchToClkV2, SwitchToClkV3;
      var multi, clk, vid, cmd := ScanClients();
      if vid && !v3 {
        return NotAllowed;
      }
      if vid && !multi {
        rc := ToVid(primary, canWait, hw);
        if rc == Zero {
          rc := VidSwitched;
        }
      } else if cmd && !(v3 && multi) {
        rc := ToCmd(primary, hw);
        if rc == Zero {
          rc := CmdSwitched;
        }
      } else if clk {
        rc := ToClk(canWait, hw);
        if rc == Zero {
          rc := ClkSwitched;
        }
      } else {
        rc := UpdateHw(Idle, hw);
      }
    }

    /** The dispatch of `sde_rsc_client_state_update` on the requested state. */
    method SwitchTo(caller: int, state: State, canWait: bool, hw: Hw) returns (rc: Rc)
      modifies this`powerCollapse, this`swFs, this`vsyncWait
      ensures Switched(Core_(), rc) == Switch(Votes_(), old(Core_()), caller, state, canWait, hw)
    {
      hide SwitchToCmdV2, SwitchToCmdV3, SwitchToVidV2, SwitchToVidV3, SwitchToClkV2, SwitchToClkV3,
        SwitchToIdleV2, SwitchToIdleV3;
      match state {
        case Idle => rc := ToIdle(canWait, hw);
        case Cmd => rc := ToCmd(caller, hw);
        case Vid => rc := ToVid(caller, canWait, hw);
        case Clk => rc := ToClk(canWait, hw);
      }
    }

    /** Before the switch: re-initialise after hibernation, clocks on when leaving IDLE. */
    method BeforeSwitch(v: Vote, hw: Hw)
      modifies this`refcount, this`usecaseOn, this`clocksOn, this`swFs, this`needHwInit
      ensures Power_() == PowerBefore(old(View()), v, hw) && Core_() == CoreBefore(old(View()), v, hw)
      ensures needHwInit == (old(needHwInit) && v.state == Idle)
    {
      hide ClkEnable, HwInitPower;
      if needHwInit && v.state != Idle {
        InitHw(hw);
        needHwInit := false;
      }
      if current == Idle {
        var ok := EnableClk(true, hw.on);
      }
    }

    /** After the switch: enter the landing state, clocks off when it is IDLE. */
    method AfterSwitch(rc0: Rc, requested: State, hw: Hw)
      modifies this`current, this`refcount, this`usecaseOn, this`clocksOn
      ensures current == Landed(old(Votes_()), Switched(Core_(), rc0), requested)
      ensures Power_() == if current == Idle then ClkEnable(old(Power_()), false, hw.off).p else old(Power_())
    {
      hide ClkEnable;
      var state, rc := requested, rc0;
      if rc == CmdSwitched {
        state, rc := Cmd, Zero;
      } else if rc == VidSwitched {
        state, rc := Vid, Zero;
      } else if rc == ClkSwitched {
        state, rc := Clk, Zero;
      }
      if rc == Zero {
        current := state;
      }
      if current == Idle {
        var ok := EnableClk(false, hw.off);
      }
    }

    /** The statements of `sde_rsc_client_state_update`. */
    method ApplyVote(v: Vote, hw: Hw)
      requires v.i < |clients|
      modifies this
      ensures View() == ClientStateUpdate(old(View()), v, hw)
    {
      hide Switch, ClkEnable, HwInitPower, PowerBefore, CoreBefore, Landed;
      ghost var r := View();
      var caller := clients[v.i].id;
      clients := clients[v.i := clients[v.i].(state := v.state)];
      if !bound || (current == v.state && !v.hasConfig) {
        return;
      }
      assert PowerBefore(View(), v, hw) == PowerBefore(r, v, hw) && CoreBefore(View(), v, hw) == CoreBefore(r, v, hw)
        by { VotesDoNotPower(r, View(), v, hw); }
      BeforeSwitch(v, hw);
      var rc := SwitchTo(caller, v.state, v.canWait, hw);
      AfterSwitch(rc, v.state, hw);
    }

    /** `sde_rsc_client_state_update`: the vote is recorded, and the state it leads to is a safe one. */
    method UpdateClient(v: Vote, hw: Hw)
      requires Valid() && v.i < |clients|
      modifies this
      ensures Valid()
      ensures clients == old(clients)[v.i := old(clients)[v.i].(state := v.state)]
      ensures v3 && (current == Cmd || current == Vid) ==> !ExternalClk(clients) && !powerCollapse
      ensures v3 && old(!CollapsedAwake(View())) ==>
                (powerCollapse && current != Idle <==> old(MasksInUpdate(View(), v, hw)))
      ensures old(!Acts(View(), v)) ==> current == old(current)
      ensures old(Acts(View(), v)) ==>
                current == old(current) || FollowsVotes(Votes_().(current := old(current)), clients[v.i].id, v.state, current)
      ensures old(Acts(View(), v)) && HwFine(hw) && !old(collapseBlock) ==>
                FollowsVotes(Votes_().(current := old(current)), clients[v.i].id, v.state, current)
      ensures vsyncWait > old(vsyncWait) <==>
                && old(Acts(View(), v)) && LeavesPanel(Votes_().(current := old(current)), v.state)
                && primary != NoClient && v.canWait && PowersUp(old(Core_()), hw)
      ensures needHwInit <==> old(needHwInit) && (v.state == Idle || !old(Acts(View(), v)))
      ensures v.state != Idle ==> (swFs <==> old(swFs) || (old(Acts(View(), v)) && old(needHwInit) && hw.regulatorOk))
      ensures old(DominantV2(View()) && RegularV2(View(), CallUpdate(v, hw))) ==> DominantV2(View())
      ensures Excess(View()) == old(Excess(View())) + if old(LeaksInUpdate(View(), v, hw)) then 1 else 0
      ensures View() == ClientStateUpdate(old(View()), v, hw)
    {
      hide ClientStateUpdate, SafeV3, DominantV2, RegularV2, CollapsedAwake, MasksInUpdate, LeaksInUpdate, ClkEnable,
        FollowsVotes, HwFine, ExternalClk, LeavesPanel, EndsWithVsync;
      ghost var r := View();
      ApplyVote(v, hw);
      UpdateMeaning(r, v, hw);
      UpdateFollowsVotes(r, v, hw);
      UpdateWaitsIff(r, v, hw);
      assert primary == r.ballot.primary && Votes_().(current := r.ballot.current) == Voted(r.ballot, v);
      if v.state != Idle {
        UpdateFootswitch(r, v, hw);
      }
      assert Votes_().(current := r.ballot.current) == View().ballot.(current := r.ballot.current);
      IdsAfterVote(r.ballot, v);
      assert IdsOk(Votes_()) by { SameIds(Voted(r.ballot, v), Votes_()); }
    }

    /** The clock reference taken and given back by `sde_rsc_client_trigger_vote`. */
    method Trigger(hw: Hw)
      requires Valid()
      modifies this`refcount, this`usecaseOn, this`clocksOn
      ensures Valid()
      ensures refcount == old(refcount) + if old(ClkEnable(Power_(), true, hw.on)).ok then 0 else 1
      ensures old(ClocksMatch(Power_())) && SupplyFine(hw.on) && SupplyFine(hw.off) ==> Power_() == old(Power_())
      ensures Power_() == TriggerVote(old(Power_()), hw)
    {
      var ok := EnableClk(true, hw.on);
      if ok {
        ok := EnableClk(false, hw.off);
      }
    }

    /** A new client: its id is new, it votes IDLE, and nobody else's vote nor the state changes. */
    method CreateClient(kind: Kind)
      requires Valid()
      modifies this`clients, this`nextId, this`primary
      ensures Valid()
      ensures |clients| > 0 && clients[1..] == old(clients) && clients[0].state == Idle && clients[0].kind == kind
      ensures forall j :: 0 <= j < |old(clients)| ==> old(clients)[j].id != clients[0].id
      ensures kind == PrimaryDisp ==> primary == clients[0].id
      ensures kind != PrimaryDisp ==> primary == old(primary)
      ensures old(DominantV2(View())) && (kind == PrimaryDisp ==> old(primary) == NoClient) ==> DominantV2(View())
      ensures Votes_() == Create(old(Votes_()), kind)
    {
      hide SafeV3, Dominance;
      ghost var r := View();
      if kind == PrimaryDisp {
        primary := nextId;
      }
      clients := [Client(nextId, kind, Idle)] + clients;
      nextId := nextId + 1;
      assert View() == r.(ballot := Create(r.ballot, kind));
      CreateMeaning(r, kind);
    }

    /** The client votes IDLE first, unless it does already; then it is gone, and the others keep their votes. */
    method DestroyClient(i: nat, hw: Hw)
      requires Valid() && i < |clients|
      modifies this
      ensures Valid()
      ensures clients == old(clients)[..i] + old(clients)[i + 1..]
      ensures forall j :: 0 <= j < |clients| ==> clients[j].id != old(clients)[i].id
      ensures v3 && (current == Cmd || current == Vid) ==> !ExternalClk(clients) && !powerCollapse
      ensures old(clients)[i].state == Idle || old(current) == Idle ==> current == old(current)
      ensures old(clients)[i].state != Idle && old(current) != Idle ==>
                current == old(current) || FollowsVotes(Votes_().(current := old(current)), NoClient, Idle, current)
      ensures old(clients)[i].state != Idle && old(current) != Idle && HwFine(hw) && !old(collapseBlock) ==>
                FollowsVotes(Votes_().(current := old(current)), NoClient, Idle, current)
      ensures vsyncWait > old(vsyncWait) <==>
                && old(clients)[i].state != Idle && old(current) != Idle && primary != NoClient && PowersUp(old(Core_()), hw)
                && LeavesPanel(old(Voted(Votes_(), LastVote(i))), Idle)
      ensures old(DominantV2(View())) && HwFine(hw) ==> DominantV2(View())
      ensures Excess(View()) == old(Excess(View()))
      ensures View() == Destroy(old(View()), i, hw)
    {
      ghost var r0 := View();
      hide ClientStateUpdate, SafeV3, DominantV2, RegularV2, CollapsedAwake, MasksInUpdate, ClkEnable, ExternalClk,
        FollowsVotes, HwFine;
      if clients[i].state != Idle {
        UpdateClient(LastVote(i), hw);
      }
      ghost var r := View();
      LeaverDoesNotCount(r.ballot.(current := r0.ballot.current), i, r.ballot.clients[i].id, current);
      clients := clients[..i] + clients[i + 1..];
      assert Votes_().(current := r0.ballot.current) == Remove(r.ballot.(current := r0.ballot.current), i);
      assert View() == r.(ballot := Remove(r.ballot, i));
      if v3 {
        RemoveKeepsSafeV3(r, i);
        SafeMeans(View());
      }
      IdsAfterRemove(r.ballot, i);
      if DominantV2(r0) && HwFine(hw) {
        DestroyKeepsDominance(r0, i, hw);
      }
    }
  }

  /** No two clients share an id, and later clients get later ids. */
  ghost predicate IdsOk(b: Ballot) {
    && (forall i :: 0 <= i < |b.clients| ==> b.clients[i].id < b.nextId)
    && (forall i, j :: 0 <= i < j < |b.clients| ==> b.clients[i].id != b.clients[j].id)
  }

  lemma {:induction false} SameIds(b: Ballot, b': Ballot)
    requires IdsOk(b) && b'.clients == b.clients && b'.nextId == b.nextId
    ensures IdsOk(b')
  {
  }

  lemma {:induction false} IdsAfterVote(b: Ballot, v: Vote)
    requires IdsOk(b) && v.i < |b.clients|
    ensures IdsOk(Voted(b, v))
  {
  }

  lemma {:induction false} IdsAfterRemove(b: Ballot, i: nat)
    requires IdsOk(b) && i < |b.clients|
    ensures IdsOk(Remove(b, i))
    ensures forall j :: 0 <= j < |Remove(b, i).clients| ==> Remove(b, i).clients[j].id != b.clients[i].id
  {
    var cs := Remove(b, i).clients;
    assert forall j :: 0 <= j < |cs| ==> cs[j] == b.clients[if j < i then j else j + 1];
  }

  lemma {:induction false} DestroyKeepsDominance(r: Rsc, i: nat, hw: Hw)
    requires DominantV2(r) && HwFine(hw) && i < |r.ballot.clients|
    ensures DominantV2(Destroy(r, i, hw))
  {
    hide Destroy, DominantV2, HwFine;
    StepKeepsDominance(r, CallDestroy(i, hw));
  }

  /** Once a client votes IDLE, the votes lead to the same state with and without it. */
  lemma {:induction false} LeaverDoesNotCount(b: Ballot, i: nat, caller: int, to: State)
    requires i < |b.clients| && b.clients[i].state == Idle
    ensures FollowsVotes(b, caller, Idle, to) ==> FollowsVotes(Remove(b, i), NoClient, Idle, to)
  {
    hide RscCoordinator.Votes, ClkVote;
    SameVotes(b.clients, i, Vid);
    SameVotes(b.clients, i, Cmd);
    SameClk(b.clients, i, ClkClient);
    SameClk(b.clients, i, ExternalDisp);
  }

  lemma {:induction false} SameVotes(cs: seq<Client>, i: nat, s: State)
    requires i < |cs| && cs[i].state == Idle && s != Idle
    ensures RscCoordinator.Votes(cs[..i] + cs[i + 1..], s) <==> RscCoordinator.Votes(cs, s)
  {
    var cs' := cs[..i] + cs[i + 1..];
    if j :| 0 <= j < |cs| && cs[j].state == s {
      var n := if j < i then j else j - 1;
      assert cs'[n] == cs[j];
    }
  }

  lemma {:induction false} SameClk(cs: seq<Client>, i: nat, kind: Kind)
    requires i < |cs| && cs[i].state == Idle
    ensures var cs' := cs[..i] + cs[i + 1..];
            && (exists j :: 0 <= j < |cs'| && cs'[j].state == Clk && cs'[j].kind == kind) <==>
               (exists j :: 0 <= j < |cs| && cs[j].state == Clk && cs[j].kind == kind)
    ensures kind == ClkClient ==> (ClkVote(cs[..i] + cs[i + 1..]) <==> ClkVote(cs))
  {
    var cs' := cs[..i] + cs[i + 1..];
    if j :| 0 <= j < |cs| && cs[j].state == Clk && cs[j].kind == kind {
      var n := if j < i then j else j - 1;
      assert cs'[n] == cs[j];
    }
    if j :| 0 <= j < |cs'| && cs'[j].state == Clk && cs'[j].kind == kind {
      var n := if j < i then j else j + 1;
      assert cs'[j] == cs[n];
    }
  }

  lemma {:induction false} SafeMeans(r: Rsc)
    requires SafeV3(r)
    ensures r.ballot.current == Cmd || r.ballot.current == Vid ==> !ExternalClk(r.ballot.clients) && !r.core.powerCollapse
    ensures r.ballot.v3
  {
  }

  /** All that a state update guarantees, gathered from the coordinator's theorems. */
  lemma {:induction false} UpdateMeaning(r: Rsc, v: Vote, hw: Hw)
    requires v.i < |r.ballot.clients| && Excess(r) >= 0 && (r.ballot.v3 ==> SafeV3(r))
    ensures var u := ClientStateUpdate(r, v, hw);
            && u.bound == r.bound && u.ballot.v3 == r.ballot.v3
            && u.ballot.clients == Voted(r.ballot, v).clients && u.ballot.nextId == r.ballot.nextId
            && u.ballot.primary == r.ballot.primary
            && (r.ballot.v3 ==> SafeV3(u))
            && (r.ballot.v3 && Solving(u.ballot.current) ==> !ExternalClk(u.ballot.clients) && !u.core.powerCollapse)
            && (r.ballot.v3 && !CollapsedAwake(r) ==> (CollapsedAwake(u) <==> MasksInUpdate(r, v, hw)))
            && (u.core.powerCollapse && u.ballot.current != Idle <==> CollapsedAwake(u))
            && (DominantV2(r) && RegularV2(r, CallUpdate(v, hw)) ==> DominantV2(u))
            && Excess(u) == Excess(r) + if LeaksInUpdate(r, v, hw) then 1 else 0
  {
    UpdateLeavesVotes(r, v, hw);
    hide ClientStateUpdate, SafeV3, DominantV2, RegularV2, MasksInUpdate, LeaksInUpdate, ExternalClk;
    var u := ClientStateUpdate(r, v, hw);
    UpdateExcess(r, v, hw);
    if r.ballot.v3 {
      UpdateKeepsSafeV3(r, v, hw);
      SafeMeans(u);
      if !CollapsedAwake(r) {
        UpdateCollapsedIff(r, v, hw);
      }
    }
    if DominantV2(r) && RegularV2(r, CallUpdate(v, hw)) {
      UpdateKeepsDominance(r, v, hw);
    }
  }

  lemma {:induction false} UpdateLeavesVotes(r: Rsc, v: Vote, hw: Hw)
    requires v.i < |r.ballot.clients|
    ensures var u := ClientStateUpdate(r, v, hw);
            && u.bound == r.bound && u.ballot.v3 == r.ballot.v3
            && u.ballot.clients == Voted(r.ballot, v).clients && u.ballot.nextId == r.ballot.nextId
            && u.ballot.primary == r.ballot.primary
  {
    hide Switch, ClkEnable, HwInitPower;
  }

  lemma {:induction false} CreateMeaning(r: Rsc, kind: Kind)
    requires IdsOk(r.ballot) && (r.ballot.v3 ==> SafeV3(r))
    ensures var u := r.(ballot := Create(r.ballot, kind));
            && IdsOk(u.ballot) && (r.ballot.v3 ==> SafeV3(u))
            && (DominantV2(r) && (kind == PrimaryDisp ==> r.ballot.primary == NoClient) ==> DominantV2(u))
  {
    hide Dominance, ExternalClk;
    CreateKeepsNoExternal(r.ballot, kind);
    if DominantV2(r) && (kind == PrimaryDisp ==> r.ballot.primary == NoClient) {
      CreateKeepsDominance(r.ballot, kind);
    }
  }

  lemma VotesDoNotPower(r: Rsc, r': Rsc, v: Vote, hw: Hw)
    requires r'.power == r.power && r'.core == r.core && r'.needHwInit == r.needHwInit
    requires r'.ballot.current == r.ballot.current
    ensures PowerBefore(r', v, hw) == PowerBefore(r, v, hw) && CoreBefore(r', v, hw) == CoreBefore(r, v, hw)
  {
  }
}
