/**
 The display RSC coordinator: many clients vote IDLE/CMD/VID/CLK and one hardware state is chosen
 by the v2 or v3 switch functions (msm/sde_rsc.c), over the mode-2 entry and exit of
 msm/sde_rsc_hw.c and msm/sde_rsc_hw_v3.c.
 */
module RscCoordinator {

  datatype State = Idle | Cmd | Vid | Clk

  datatype Kind = PrimaryDisp | ExternalDisp | ClkClient

  datatype Client = Client(id: nat, kind: Kind, state: State)

  /** Return codes; the middle four are the 0xFFFF..0xFFFC codes of the switch functions. */
  datatype Rc = Zero | NotAllowed | CmdSwitched | VidSwitched | ClkSwitched | EInval | EBusy | ETimedOut | ERegulator

  const MAX_MODE2_ENTRY_TRY := 3

  const NoClient := -1

  /** The votes and the state chosen from them. */
  datatype Ballot = Ballot(
    v3: bool,              // switch functions in use: v3, otherwise v2
    current: State,
    clients: seq<Client>,
    primary: int,          // id of the primary client, or NoClient
    nextId: nat)

  /** What the switch functions change in hardware. */
  datatype Core = Core(powerCollapse: bool, collapseBlock: bool, swFs: bool, vsyncWait: nat)

  /** The RSC clock reference. */
  datatype Power = Power(
    refcount: nat,         // pclient->refcount
    usecaseOn: bool,       // phandle->current_usecase_ndx is LOW (otherwise DISABLE)
    clocksOn: bool)

  datatype Rsc = Rsc(ballot: Ballot, core: Core, power: Power, needHwInit: bool, bound: bool)

  /** Whether the regulator and the clock call of one `sde_rsc_clk_enable` succeed. */
  datatype Supply = Supply(vregOk: bool, clkOk: bool)

  /** Arbitrary hardware and framework answers for one API call. */
  datatype Hw = Hw(
    exitOk: bool,          // mode-2 exit sees the power-up
    fastModeOk: bool,      // regulator_set_mode
    entryFailures: nat,    // failing mode-2 triggers before one succeeds
    vsyncOk: bool,         // the vsync wait ends before its timeout
    regulatorOk: bool,     // regulator_enable during hw init
    initOk: bool,          // hw_ops.init
    initOn: Supply, initOff: Supply, on: Supply, off: Supply)

  predicate External(c: Client) { c.state == Clk && c.kind == ExternalDisp }

  predicate ExternalClk(cs: seq<Client>) { exists i :: 0 <= i < |cs| && External(cs[i]) }

  predicate ClkVote(cs: seq<Client>) { exists i :: 0 <= i < |cs| && cs[i].state == Clk && cs[i].kind == ClkClient }

  predicate Votes(cs: seq<Client>, s: State) { exists i :: 0 <= i < |cs| && cs[i].state == s }

  // ---------------------------------------------------------------- clocks

  datatype Clocked = Clocked(p: Power, ok: bool)

  function ClkEnable(p: Power, enable: bool, s: Supply): Clocked {
    var count := if enable then p.refcount + 1 else if p.refcount > 0 then p.refcount - 1 else 0;
    var want := count > 0;
    var p1 := p.(refcount := count);
    if p.usecaseOn == want then Clocked(p1, true)
    else if enable then
      if s.vregOk && s.clkOk then Clocked(p1.(usecaseOn := want, clocksOn := true), true) else Clocked(p1, false)
    else if s.vregOk then Clocked(p1.(usecaseOn := want, clocksOn := false), true)
    else Clocked(p1.(clocksOn := false), false)
  }

  function HwInitPower(p: Power, hw: Hw): Power {
    if !hw.regulatorOk then p
    else
      var on := ClkEnable(p, true, hw.initOn);
      if !on.ok || !hw.initOk then on.p else ClkEnable(on.p, false, hw.initOff).p
  }

  // ---------------------------------------------------------------- hardware state update

  datatype Switched = Switched(core: Core, rc: Rc)

  function Mode2Entry(c: Core, hw: Hw): Switched {
    if c.collapseBlock then Switched(c, EInval)
    else if c.swFs && !hw.fastModeOk then Switched(c, ERegulator)
    else if hw.entryFailures > MAX_MODE2_ENTRY_TRY then Switched(c, EBusy)
    else Switched(c.(swFs := false), Zero)
  }

  function StateUpdate(c: Core, target: State, hw: Hw): Switched {
    var exited := if !c.powerCollapse then Switched(c, Zero)
                  else if hw.exitOk then Switched(c.(powerCollapse := false), Zero)
                  else Switched(c, EBusy);
    if target != Idle then exited
    else
      var entered := Mode2Entry(exited.core, hw);
      if entered.rc == Zero then Switched(entered.core.(powerCollapse := true), Zero) else entered
  }

  /** The end of a switch: ask for a vsync wait, or first sit out a pending one. */
  function VsyncTail(b: Ballot, s: Switched, leaving: bool, canWait: bool, hw: Hw): Switched {
    if s.rc == Zero && b.primary != NoClient && leaving then
      if canWait then Switched(s.core.(vsyncWait := s.core.vsyncWait + 1), Zero) else s
    else if s.core.vsyncWait > 0 then
      if hw.vsyncOk then Switched(s.core.(vsyncWait := 0), Zero) else Switched(s.core, ETimedOut)
    else s
  }

  // ---------------------------------------------------------------- switch functions, v3

  function SwitchToCmdV3(b: Ballot, c: Core, caller: int, hw: Hw): Switched {
    if b.primary == NoClient || caller != b.primary then Switched(c, EInval)
    else if b.current == Cmd then Switched(c, Zero)
    else if ExternalClk(b.clients) then Switched(c, NotAllowed)
    else StateUpdate(c, Cmd, hw)
  }

  function SwitchToVidV3(b: Ballot, c: Core, caller: int, hw: Hw): Switched {
    if b.primary == NoClient || caller != b.primary then Switched(c, EInval)
    else if b.current == Vid then Switched(c, Zero)
    else if ExternalClk(b.clients) then Switched(c, NotAllowed)
    else StateUpdate(c, Vid, hw)
  }

  function SwitchToClkV3(b: Ballot, c: Core, canWait: bool, hw: Hw): Switched {
    if !ExternalClk(b.clients) && (Votes(b.clients, Vid) || Votes(b.clients, Cmd)) then Switched(c, NotAllowed)
    else VsyncTail(b, StateUpdate(c, Clk, hw), b.current == Cmd || b.current == Vid, canWait, hw)
  }

  function Renamed(s: Switched, rc: Rc): Switched { if s.rc == Zero then s.(rc := rc) else s }

  function SwitchToIdleV3(b: Ballot, c: Core, canWait: bool, hw: Hw): Switched {
    var multi := ExternalClk(b.clients);
    if Votes(b.clients, Vid) && !multi then Renamed(SwitchToVidV3(b, c, b.primary, hw), VidSwitched)
    else if Votes(b.clients, Cmd) && !multi then Renamed(SwitchToCmdV3(b, c, b.primary, hw), CmdSwitched)
    else if ClkVote(b.clients) then Renamed(SwitchToClkV3(b, c, canWait, hw), ClkSwitched)
    else StateUpdate(c, Idle, hw)
  }

  // ---------------------------------------------------------------- switch functions, v2

  function SwitchToCmdV2(b: Ballot, c: Core, caller: int, hw: Hw): Switched {
    if b.primary == NoClient || caller != b.primary then Switched(c, EInval)
    else if b.current == Cmd then Switched(c, Zero)
    else if Votes(b.clients, Vid) then Switched(c, NotAllowed)
    else StateUpdate(c, Cmd, hw)
  }

  function SwitchToVidV2(b: Ballot, c: Core, canWait: bool, hw: Hw): Switched {
    if b.current == Vid then Switched(c, Zero)
    else VsyncTail(b, StateUpdate(c, Vid, hw), b.current == Cmd, canWait, hw)
  }

  function SwitchToClkV2(b: Ballot, c: Core, canWait: bool, hw: Hw): Switched {
    if Votes(b.clients, Vid) || Votes(b.clients, Cmd) then Switched(c, NotAllowed)
    else VsyncTail(b, StateUpdate(c, Clk, hw), b.current == Cmd, canWait, hw)
  }

  function SwitchToIdleV2(b: Ballot, c: Core, canWait: bool, hw: Hw): Switched {
    if Votes(b.clients, Vid) then Switched(c, NotAllowed)
    else if Votes(b.clients, Cmd) then Renamed(SwitchToCmdV2(b, c, b.primary, hw), CmdSwitched)
    else if ClkVote(b.clients) then Renamed(SwitchToClkV2(b, c, canWait, hw), ClkSwitched)
    else StateUpdate(c, Idle, hw)
  }

  // ---------------------------------------------------------------- API calls

  function Switch(b: Ballot, c: Core, caller: int, state: State, canWait: bool, hw: Hw): Switched {
    match state
    case Idle => if b.v3 then SwitchToIdleV3(b, c, canWait, hw) else SwitchToIdleV2(b, c, canWait, hw)
    case Cmd => if b.v3 then SwitchToCmdV3(b, c, caller, hw) else SwitchToCmdV2(b, c, caller, hw)
    case Vid => if b.v3 then SwitchToVidV3(b, c, caller, hw) else SwitchToVidV2(b, c, canWait, hw)
    case Clk => if b.v3 then SwitchToClkV3(b, c, canWait, hw) else SwitchToClkV2(b, c, canWait, hw)
  }

  /** Whether a switch ends in a new state, and which one. */
  predicate Lands(rc: Rc) { rc == Zero || rc == CmdSwitched || rc == VidSwitched || rc == ClkSwitched }

  function Landing(rc: Rc, requested: State): State {
    match rc
    case CmdSwitched => Cmd
    case VidSwitched => Vid
    case ClkSwitched => Clk
    case _ => requested
  }

  /** The state after a switch was tried for a request of `state`. */
  function Landed(b: Ballot, s: Switched, state: State): State {
    if Lands(s.rc) then Landing(s.rc, state) else b.current
  }

  /** Client `i` asks for `state`; `hasConfig` says whether a panel configuration comes with it. */
  datatype Vote = Vote(i: nat, state: State, hasConfig: bool, canWait: bool)

  function Voted(b: Ballot, v: Vote): Ballot
    requires v.i < |b.clients|
  {
    b.(clients := b.clients[v.i := b.clients[v.i].(state := v.state)])
  }

  /** The call returns before touching clocks or hardware. */
  predicate ReturnsEarly(r: Rsc, v: Vote) { !r.bound || (r.ballot.current == v.state && !v.hasConfig) }

  predicate Reinitialises(r: Rsc, v: Vote) { r.needHwInit && v.state != Idle }

  /** The clock reference when the switch function is called. */
  function PowerBefore(r: Rsc, v: Vote, hw: Hw): Power {
    var p := if Reinitialises(r, v) then HwInitPower(r.power, hw) else r.power;
    if r.ballot.current == Idle then ClkEnable(p, true, hw.on).p else p
  }

  function CoreBefore(r: Rsc, v: Vote, hw: Hw): Core {
    if Reinitialises(r, v) && hw.regulatorOk then r.core.(swFs := true) else r.core
  }

  function Outcome(r: Rsc, v: Vote, hw: Hw): Switched
    requires v.i < |r.ballot.clients|
  {
    Switch(Voted(r.ballot, v), CoreBefore(r, v, hw), r.ballot.clients[v.i].id, v.state, v.canWait, hw)
  }

  function ClientStateUpdate(r: Rsc, v: Vote, hw: Hw): Rsc
    requires v.i < |r.ballot.clients|
  {
    var b := Voted(r.ballot, v);
    if ReturnsEarly(r, v) then r.(ballot := b)
    else
      var s := Outcome(r, v, hw);
      var current := Landed(b, s, v.state);
      var p := PowerBefore(r, v, hw);
      Rsc(b.(current := current), s.core,
          if current == Idle then ClkEnable(p, false, hw.off).p else p,
          r.needHwInit && v.state == Idle, r.bound)
  }

  function TriggerVote(p: Power, hw: Hw): Power {
    var on := ClkEnable(p, true, hw.on);
    if !on.ok then on.p else ClkEnable(on.p, false, hw.off).p
  }

  function Create(b: Ballot, kind: Kind): Ballot {
    b.(clients := [Client(b.nextId, kind, Idle)] + b.clients, nextId := b.nextId + 1,
       primary := if kind == PrimaryDisp then b.nextId else b.primary)
  }

  function Remove(b: Ballot, i: nat): Ballot
    requires i < |b.clients|
  {
    b.(clients := b.clients[..i] + b.clients[i + 1..])
  }

  /** The vote `sde_rsc_client_destroy` casts for a client that is not idle. */
  function LastVote(i: nat): Vote { Vote(i, Idle, false, true) }

  function Destroy(r: Rsc, i: nat, hw: Hw): Rsc
    requires i < |r.ballot.clients|
  {
    var r1 := if r.ballot.clients[i].state != Idle then ClientStateUpdate(r, LastVote(i), hw) else r;
    r1.(ballot := Remove(r1.ballot, i))
  }

  datatype Event =
    | CallUpdate(vote: Vote, hw: Hw)
    | CallTrigger(hw: Hw)
    | CallCreate(kind: Kind)
    | CallDestroy(i: nat, hw: Hw)
    | VsyncArrived            // sde_rsc_client_reset_vsync_refcount
    | Hibernated              // sde_rsc_pm_freeze_late
    | BlockCollapse(on: bool) // debugfs mode control

  function Step(r: Rsc, e: Event): Rsc {
    match e
    case CallUpdate(v, hw) => if v.i < |r.ballot.clients| then ClientStateUpdate(r, v, hw) else r
    case CallTrigger(hw) => r.(power := TriggerVote(r.power, hw))
    case CallCreate(kind) => r.(ballot := Create(r.ballot, kind))
    case CallDestroy(i, hw) => if i < |r.ballot.clients| then Destroy(r, i, hw) else r
    case VsyncArrived => r.(core := r.core.(vsyncWait := if r.core.vsyncWait > 0 then r.core.vsyncWait - 1 else 0))
    case Hibernated => r.(needHwInit := true)
    case BlockCollapse(on) => r.(core := r.core.(collapseBlock := on))
  }

  function Run(r: Rsc, es: seq<Event>): Rsc {
    if es == [] then r else Step(Run(r, es[..|es| - 1]), es[|es| - 1])
  }

  /** The coordinator right after probe, with `master_drm` bound. */
  function Probed(v3: bool): Rsc {
    Rsc(Ballot(v3, Idle, [], NoClient, 0), Core(false, false, true, 0), Power(0, false, false), false, true)
  }

  // ---------------------------------------------------------------- v3 safety

  /**
   In CMD or VID there is a primary client, no external display holds a CLK vote and power is not
   collapsed: the safety claim, joined with "power collapse implies state IDLE or CLK".
   */
  ghost predicate SafeV3(r: Rsc) {
    && r.ballot.v3 && r.bound
    && (r.ballot.current == Cmd || r.ballot.current == Vid ==>
          r.ballot.primary != NoClient && !ExternalClk(r.ballot.clients) && !r.core.powerCollapse)
  }

  predicate Solving(s: State) { s == Cmd || s == Vid }

  /** When a v3 switch may be called: a CLK vote of an external display is still unserved only while it is being cast. */
  ghost predicate ReadyV3(b: Ballot, c: Core, state: State) {
    && b.v3
    && (Solving(b.current) ==> b.primary != NoClient && !c.powerCollapse && (ExternalClk(b.clients) ==> state == Clk))
  }

  ghost predicate SafeLanding(b: Ballot, s: Switched, state: State) {
    Solving(Landed(b, s, state)) ==> b.primary != NoClient && !ExternalClk(b.clients) && !s.core.powerCollapse
  }

  lemma {:induction false} ClkV3Safe(b: Ballot, c: Core, state: State, canWait: bool, hw: Hw)
    requires ReadyV3(b, c, Clk)
    ensures SafeLanding(b, SwitchToClkV3(b, c, canWait, hw), Clk)
    ensures ReadyV3(b, c, Idle) ==> SafeLanding(b, Renamed(SwitchToClkV3(b, c, canWait, hw), ClkSwitched), Idle)
  {
    hide ExternalClk, Votes, ClkVote;
  }

  lemma {:induction false} CmdVidV3Safe(b: Ballot, c: Core, caller: int, hw: Hw)
    ensures ReadyV3(b, c, Cmd) ==> SafeLanding(b, SwitchToCmdV3(b, c, caller, hw), Cmd)
    ensures ReadyV3(b, c, Vid) ==> SafeLanding(b, SwitchToVidV3(b, c, caller, hw), Vid)
    ensures ReadyV3(b, c, Idle) ==>
              && SafeLanding(b, Renamed(SwitchToCmdV3(b, c, caller, hw), CmdSwitched), Idle)
              && SafeLanding(b, Renamed(SwitchToVidV3(b, c, caller, hw), VidSwitched), Idle)
  {
    hide ExternalClk, Votes, ClkVote;
  }

  lemma {:induction false} SwitchV3Safe(b: Ballot, c: Core, caller: int, state: State, canWait: bool, hw: Hw)
    requires ReadyV3(b, c, state)
    ensures SafeLanding(b, Switch(b, c, caller, state, canWait, hw), state)
  {
    hide ExternalClk, Votes, ClkVote, SwitchToCmdV3, SwitchToVidV3, SwitchToClkV3;
    match state {
      case Idle =>
        CmdVidV3Safe(b, c, b.primary, hw);
        ClkV3Safe(b, c, state, canWait, hw);
      case Clk => ClkV3Safe(b, c, state, canWait, hw);
      case _ => CmdVidV3Safe(b, c, caller, hw);
    }
  }

  lemma {:induction false} UpdateKeepsSafeV3(r: Rsc, v: Vote, hw: Hw)
    requires SafeV3(r) && v.i < |r.ballot.clients|
    ensures SafeV3(ClientStateUpdate(r, v, hw)) && |ClientStateUpdate(r, v, hw).ballot.clients| == |r.ballot.clients|
  {
    var b := Voted(r.ballot, v);
    assert ExternalClk(b.clients) ==> ExternalClk(r.ballot.clients) || v.state == Clk;
    if !ReturnsEarly(r, v) {
      hide ClkEnable, HwInitPower, ExternalClk, Switch;
      SwitchV3Safe(b, CoreBefore(r, v, hw), r.ballot.clients[v.i].id, v.state, v.canWait, hw);
    }
  }

  lemma {:induction false} RemoveKeepsSafeV3(r: Rsc, i: nat)
    requires SafeV3(r) && i < |r.ballot.clients|
    ensures SafeV3(r.(ballot := Remove(r.ballot, i)))
  {
    var cs := r.ballot.clients;
    var rest := cs[..i] + cs[i + 1..];
    if ExternalClk(rest) {
      var j :| 0 <= j < |rest| && External(rest[j]);
      assert External(cs[if j < i then j else j + 1]);
    }
  }

  lemma {:induction false} StepKeepsSafeV3(r: Rsc, e: Event)
    requires SafeV3(r)
    ensures SafeV3(Step(r, e))
  {
    hide ClientStateUpdate, TriggerVote;
    match e {
      case CallUpdate(v, hw) =>
        if v.i < |r.ballot.clients| { UpdateKeepsSafeV3(r, v, hw); }
      case CallDestroy(i, hw) =>
        if i < |r.ballot.clients| {
          UpdateKeepsSafeV3(r, LastVote(i), hw);
          RemoveKeepsSafeV3(if r.ballot.clients[i].state != Idle then ClientStateUpdate(r, LastVote(i), hw) else r, i);
        }
      case CallCreate(kind) =>
        CreateKeepsNoExternal(r.ballot, kind);
      case _ =>
    }
  }

  lemma {:induction false} CreateKeepsNoExternal(b: Ballot, kind: Kind)
    ensures ExternalClk(Create(b, kind).clients) ==> ExternalClk(b.clients)
  {
    var cs := Create(b, kind).clients;
    if ExternalClk(cs) {
      var i :| 0 <= i < |cs| && External(cs[i]);
      assert External(b.clients[i - 1]);
    }
  }

  /**
   Over every run, whatever mode-2 entry, mode-2 exit, vsync waits and clock calls answer: the v3
   coordinator is never in CMD or VID while an external display holds a CLK vote, and power is
   collapsed only in IDLE or CLK.
   */
  lemma {:induction false} RunSafeV3(es: seq<Event>)
    ensures SafeV3(Run(Probed(true), es))
  {
    hide Step;
    if es != [] {
      RunSafeV3(es[..|es| - 1]);
      StepKeepsSafeV3(Run(Probed(true), es[..|es| - 1]), es[|es| - 1]);
    }
  }

  const ExSupply := Supply(true, true)
  const ExHw := Hw(true, true, 0, true, true, true, ExSupply, ExSupply, ExSupply, ExSupply)
  const ExPrimary := Client(0, PrimaryDisp, Idle)
  const ExExternal := Client(1, ExternalDisp, Idle)

  function ExVote(i: nat, s: State, exitOk: bool): Event {
    CallUpdate(Vote(i, s, false, true), ExHw.(exitOk := exitOk))
  }

  lemma {:induction false} ExampleToClk(r: Rsc)
    requires r.ballot == Ballot(true, Idle, [ExExternal, ExPrimary], 0, 2)
    requires r.bound && !r.needHwInit && r.core == Core(false, false, true, 0)
    ensures var r1 := Step(r, ExVote(1, Cmd, true));
            var r2 := Step(r1, ExVote(0, Clk, true));
            && r2.ballot == Ballot(true, Clk, [ExExternal.(state := Clk), ExPrimary.(state := Cmd)], 0, 2)
            && r2.bound && !r2.needHwInit && r2.core == Core(false, false, true, 1)
  {
    hide ClkEnable;
    var r1 := Step(r, ExVote(1, Cmd, true));
    var cs1 := [ExExternal, ExPrimary.(state := Cmd)];
    assert Voted(r.ballot, ExVote(1, Cmd, true).vote).clients == cs1;
    assert r1.ballot == Ballot(true, Cmd, cs1, 0, 2) && r1.core == r.core;
    var cs2 := [ExExternal.(state := Clk), ExPrimary.(state := Cmd)];
    assert Voted(r1.ballot, ExVote(0, Clk, true).vote).clients == cs2;
    assert External(cs2[0]);
  }

  lemma {:induction false} ExampleMaskedExit(r: Rsc)
    requires r.ballot == Ballot(true, Clk, [ExExternal.(state := Clk), ExPrimary.(state := Cmd)], 0, 2)
    requires r.bound && !r.needHwInit && r.core == Core(false, false, true, 1)
    ensures var r1 := Step(r, ExVote(1, Idle, true));
            var r2 := Step(r1, ExVote(0, Clk, false));
            r2.ballot.current == Clk && r2.core.powerCollapse
  {
    hide ClkEnable;
    var r1 := Step(r, ExVote(1, Idle, true));
    var cs1 := [ExExternal.(state := Clk), ExPrimary];
    assert Voted(r.ballot, ExVote(1, Idle, true).vote).clients == cs1;
    assert External(cs1[0]) && !ClkVote(cs1);
    assert r1.ballot == Ballot(true, Idle, cs1, 0, 2) && r1.core == Core(true, false, false, 1);
    assert Voted(r1.ballot, ExVote(0, Clk, false).vote).clients == cs1;
  }

  /**
   IDLE alone would be too strong: in a reachable state a failed mode-2 exit is masked by a vsync
   wait that ends well, and the coordinator enters CLK with power still collapsed.
   */
  lemma {:induction false} CollapseInClkV3()
    ensures exists r :: Reachable(true, r) && r.ballot.current == Clk && r.core.powerCollapse
  {
    var p := Probed(true);
    assert Run(p, []) == p;
    var e0, e1 := CallCreate(PrimaryDisp), CallCreate(ExternalDisp);
    var r2 := Step(Step(p, e0), e1);
    assert r2.ballot == Ballot(true, Idle, [ExExternal, ExPrimary], 0, 2);
    hide Step, Run;
    var e2, e3, e4, e5 := ExVote(1, Cmd, true), ExVote(0, Clk, true), ExVote(1, Idle, true), ExVote(0, Clk, false);
    ExampleToClk(r2);
    var r4 := Step(Step(r2, e2), e3);
    ExampleMaskedExit(r4);
    ReachableStep(true, p, e0);
    ReachableStep(true, Step(p, e0), e1);
    ReachableStep(true, r2, e2);
    ReachableStep(true, Step(r2, e2), e3);
    ReachableStep(true, r4, e4);
    ReachableStep(true, Step(r4, e4), e5);
  }

  // ---------------------------------------------------------------- which state the votes lead to

  /** The caller is the primary client. */
  predicate ByPrimary(b: Ballot, caller: int) { b.primary != NoClient && caller == b.primary }

  predicate PanelVote(b: Ballot) { Votes(b.clients, Vid) || Votes(b.clients, Cmd) }

  /**
   v3, from the votes alone. A request for IDLE goes to the panel's state unless an external display
   votes CLK: VID before CMD; then to CLK if a CLK client votes so, else to IDLE. CMD and VID are the
   primary's to ask for and yield to an external CLK vote; CLK yields to the panel unless there is one.
   `to` is the state after the call.
   */
  ghost predicate FollowsVotesV3(b: Ballot, caller: int, state: State, to: State) {
    var ext := exists i :: 0 <= i < |b.clients| && b.clients[i].state == Clk && b.clients[i].kind == ExternalDisp;
    match state
    case Idle =>
      && (!ext && Votes(b.clients, Vid) ==> to == if b.primary != NoClient then Vid else b.current)
      && (!ext && !Votes(b.clients, Vid) && Votes(b.clients, Cmd) ==> to == if b.primary != NoClient then Cmd else b.current)
      && (ext || !PanelVote(b) ==> to == if ClkVote(b.clients) then Clk else Idle)
    case Clk => to == if ext || !PanelVote(b) then Clk else b.current
    case _ => to == if ByPrimary(b, caller) && (b.current == state || !ext) then state else b.current
  }

  /** v2: any VID vote wins, then the primary's CMD vote, then a CLK vote. */
  ghost predicate FollowsVotesV2(b: Ballot, caller: int, state: State, to: State) {
    match state
    case Vid => to == Vid
    case Cmd => to == if ByPrimary(b, caller) && (b.current == Cmd || !Votes(b.clients, Vid)) then Cmd else b.current
    case Clk => to == if PanelVote(b) then b.current else Clk
    case Idle =>
      && (Votes(b.clients, Vid) ==> to == b.current)
      && (!Votes(b.clients, Vid) && Votes(b.clients, Cmd) ==> to == if b.primary != NoClient then Cmd else b.current)
      && (!PanelVote(b) ==> to == if ClkVote(b.clients) then Clk else Idle)
  }

  ghost predicate FollowsVotes(b: Ballot, caller: int, state: State, to: State) {
    if b.v3 then FollowsVotesV3(b, caller, state, to) else FollowsVotesV2(b, caller, state, to)
  }

  /** Whatever the hardware answers, a switch stays where it was or goes where the votes lead. */
  lemma {:induction false} SwitchFollowsVotes(b: Ballot, c: Core, caller: int, state: State, canWait: bool, hw: Hw)
    ensures var to := Landed(b, Switch(b, c, caller, state, canWait, hw), state);
            && (to == b.current || FollowsVotes(b, caller, state, to))
            && (HwFine(hw) && !c.collapseBlock ==> FollowsVotes(b, caller, state, to))
  {
    ExtMeans(b.clients);
    if b.v3 {
      FollowsV3(b, c, caller, state, canWait, hw);
    } else {
      FollowsV2(b, c, caller, state, canWait, hw);
    }
  }

  lemma {:induction false} ExtMeans(cs: seq<Client>)
    ensures ExternalClk(cs) <==> exists i :: 0 <= i < |cs| && cs[i].state == Clk && cs[i].kind == ExternalDisp
  {
    if i :| 0 <= i < |cs| && cs[i].state == Clk && cs[i].kind == ExternalDisp {
      assert External(cs[i]);
    }
  }

  lemma {:induction false} UpdatePlain(c: Core, target: State, hw: Hw)
    ensures Plain(StateUpdate(c, target, hw).rc)
    ensures HwFine(hw) && !c.collapseBlock ==> StateUpdate(c, target, hw).rc == Zero
  {
  }

  lemma {:induction false} FollowsV3(b: Ballot, c: Core, caller: int, state: State, canWait: bool, hw: Hw)
    requires b.v3
    requires ExternalClk(b.clients) <==>
             exists i :: 0 <= i < |b.clients| && b.clients[i].state == Clk && b.clients[i].kind == ExternalDisp
    ensures var to := Landed(b, Switch(b, c, caller, state, canWait, hw), state);
            && (to == b.current || FollowsVotesV3(b, caller, state, to))
            && (HwFine(hw) && !c.collapseBlock ==> FollowsVotesV3(b, caller, state, to))
  {
    hide ExternalClk, Votes, ClkVote, StateUpdate, HwFine;
    forall target ensures Plain(StateUpdate(c, target, hw).rc)
      ensures HwFine(hw) && !c.collapseBlock ==> StateUpdate(c, target, hw).rc == Zero && hw.vsyncOk
    {
      UpdatePlain(c, target, hw);
      FineVsync(hw);
    }
  }

  lemma {:induction false} FineVsync(hw: Hw)
    ensures HwFine(hw) ==> hw.vsyncOk
  {
  }

  lemma {:induction false} FollowsV2(b: Ballot, c: Core, caller: int, state: State, canWait: bool, hw: Hw)
    requires !b.v3
    ensures var to := Landed(b, Switch(b, c, caller, state, canWait, hw), state);
            && (to == b.current || FollowsVotesV2(b, caller, state, to))
            && (HwFine(hw) && !c.collapseBlock ==> FollowsVotesV2(b, caller, state, to))
  {
    hide Votes, ClkVote, StateUpdate, HwFine;
    forall target ensures Plain(StateUpdate(c, target, hw).rc)
      ensures HwFine(hw) && !c.collapseBlock ==> StateUpdate(c, target, hw).rc == Zero && hw.vsyncOk
    {
      UpdatePlain(c, target, hw);
      FineVsync(hw);
    }
  }

  /** Power is up, or comes up. */
  predicate PowersUp(c: Core, hw: Hw) { c.powerCollapse ==> hw.exitOk }

  /** A switch that leaves the panel's state does not wait; others sit out a pending vsync wait, which then decides. */
  predicate TailOk(b: Ballot, c: Core, hw: Hw) {
    if PowersUp(c, hw) && b.primary != NoClient && (b.current == Cmd || (b.v3 && b.current == Vid)) then true
    else if c.vsyncWait > 0 then hw.vsyncOk
    else PowersUp(c, hw)
  }

  /** The hardware answers let the coordinator enter `to`. */
  predicate HwAllows(b: Ballot, c: Core, to: State, hw: Hw) {
    match to
    case Idle => !c.collapseBlock && (c.swFs ==> hw.fastModeOk) && hw.entryFailures <= 3
    case Clk => TailOk(b, c, hw)
    case Vid => if b.v3 then PowersUp(c, hw) else TailOk(b, c, hw)
    case Cmd => PowersUp(c, hw)
  }

  /** What the landing needs to know of a hardware update. */
  lemma {:induction false} UpdateAllows(b: Ballot, c: Core, target: State, hw: Hw)
    ensures var u := StateUpdate(c, target, hw);
            && Plain(u.rc) && u.core.vsyncWait == c.vsyncWait
            && (target != Idle ==> (u.rc == Zero <==> PowersUp(c, hw)))
            && (target == Idle ==> (u.rc == Zero <==> HwAllows(b, c, Idle, hw)))
  {
    UpdatePlain(c, target, hw);
    CollapseAfterUpdate(c, target, hw);
  }

  lemma {:induction false} VsyncDecides(b: Ballot, c: Core, s: Switched, leaving: bool, canWait: bool, hw: Hw)
    requires Plain(s.rc) && s.core.vsyncWait == c.vsyncWait && (s.rc == Zero <==> PowersUp(c, hw))
    requires leaving <==> b.current == Cmd || (b.v3 && b.current == Vid)
    ensures var r := VsyncTail(b, s, leaving, canWait, hw); Plain(r.rc) && (r.rc == Zero <==> TailOk(b, c, hw))
  {
  }

  lemma {:induction false} PanelOkV3(b: Ballot, c: Core, caller: int, hw: Hw)
    ensures var r := SwitchToCmdV3(b, c, caller, hw).rc;
            && Plain(r)
            && (r == Zero <==> ByPrimary(b, caller) && (b.current == Cmd || (!ExternalClk(b.clients) && PowersUp(c, hw))))
    ensures var r := SwitchToVidV3(b, c, caller, hw).rc;
            && Plain(r)
            && (r == Zero <==> ByPrimary(b, caller) && (b.current == Vid || (!ExternalClk(b.clients) && PowersUp(c, hw))))
  {
    UpdateAllows(b, c, Cmd, hw);
    UpdateAllows(b, c, Vid, hw);
    hide ExternalClk, StateUpdate;
  }

  lemma {:induction false} ClkOkV3(b: Ballot, c: Core, canWait: bool, hw: Hw)
    requires b.v3
    ensures var r := SwitchToClkV3(b, c, canWait, hw).rc;
            Plain(r) && (r == Zero <==> (ExternalClk(b.clients) || !PanelVote(b)) && TailOk(b, c, hw))
  {
    UpdateAllows(b, c, Clk, hw);
    VsyncDecides(b, c, StateUpdate(c, Clk, hw), b.current == Cmd || b.current == Vid, canWait, hw);
    hide ExternalClk, Votes, StateUpdate, VsyncTail, TailOk;
  }

  lemma {:induction false} LandsExactlyV3(b: Ballot, c: Core, caller: int, state: State, canWait: bool, hw: Hw, to: State)
    requires b.v3 && FollowsVotesV3(b, caller, state, to)
    ensures Landed(b, Switch(b, c, caller, state, canWait, hw), state) ==
            if HwAllows(b, c, to, hw) then to else b.current
  {
    ExtMeans(b.clients);
    UpdateAllows(b, c, Idle, hw);
    PanelOkV3(b, c, caller, hw);
    PanelOkV3(b, c, b.primary, hw);
    ClkOkV3(b, c, canWait, hw);
    hide ExternalClk, Votes, ClkVote, StateUpdate, SwitchToCmdV3, SwitchToVidV3, SwitchToClkV3, TailOk, PowersUp;
  }

  lemma {:induction false} PanelOkV2(b: Ballot, c: Core, caller: int, canWait: bool, hw: Hw)
    requires !b.v3
    ensures var r := SwitchToCmdV2(b, c, caller, hw).rc;
            && Plain(r)
            && (r == Zero <==> ByPrimary(b, caller) && (b.current == Cmd || (!Votes(b.clients, Vid) && PowersUp(c, hw))))
    ensures var r := SwitchToVidV2(b, c, canWait, hw).rc;
            Plain(r) && (r == Zero <==> b.current == Vid || TailOk(b, c, hw))
  {
    UpdateAllows(b, c, Cmd, hw);
    UpdateAllows(b, c, Vid, hw);
    VsyncDecides(b, c, StateUpdate(c, Vid, hw), b.current == Cmd, canWait, hw);
    hide Votes, StateUpdate, VsyncTail, TailOk;
  }

  lemma {:induction false} ClkOkV2(b: Ballot, c: Core, canWait: bool, hw: Hw)
    requires !b.v3
    ensures var r := SwitchToClkV2(b, c, canWait, hw).rc;
            Plain(r) && (r == Zero <==> !PanelVote(b) && TailOk(b, c, hw))
  {
    UpdateAllows(b, c, Clk, hw);
    VsyncDecides(b, c, StateUpdate(c, Clk, hw), b.current == Cmd, canWait, hw);
    hide Votes, StateUpdate, VsyncTail, TailOk;
  }

  lemma {:induction false} LandsExactlyV2(b: Ballot, c: Core, caller: int, state: State, canWait: bool, hw: Hw, to: State)
    requires !b.v3 && FollowsVotesV2(b, caller, state, to)
    ensures Landed(b, Switch(b, c, caller, state, canWait, hw), state) ==
            if HwAllows(b, c, to, hw) then to else b.current
  {
    UpdateAllows(b, c, Idle, hw);
    PanelOkV2(b, c, caller, canWait, hw);
    PanelOkV2(b, c, b.primary, canWait, hw);
    ClkOkV2(b, c, canWait, hw);
    hide Votes, ClkVote, StateUpdate, SwitchToCmdV2, SwitchToVidV2, SwitchToClkV2, TailOk, PowersUp;
  }

  /** Exactly where a switch ends: where the votes lead if the hardware allows it, else where it was. */
  lemma {:induction false} SwitchLandsExactly(b: Ballot, c: Core, caller: int, state: State, canWait: bool, hw: Hw, to: State)
    requires FollowsVotes(b, caller, state, to)
    ensures Landed(b, Switch(b, c, caller, state, canWait, hw), state) ==
            if HwAllows(b, c, to, hw) then to else b.current
  {
    hide FollowsVotesV3, FollowsVotesV2, Switch, Landed, HwAllows;
    if b.v3 {
      LandsExactlyV3(b, c, caller, state, canWait, hw, to);
    } else {
      LandsExactlyV2(b, c, caller, state, canWait, hw, to);
    }
  }

  /** The call comes to the hardware: another state is asked for, or a new panel configuration. */
  predicate Acts(r: Rsc, v: Vote) { r.bound && (r.ballot.current != v.state || v.hasConfig) }

  /** One state update: the vote is counted, and then the votes decide. */
  lemma {:induction false} UpdateFollowsVotes(r: Rsc, v: Vote, hw: Hw)
    requires v.i < |r.ballot.clients|
    ensures var u := ClientStateUpdate(r, v, hw); var b := u.ballot.(current := r.ballot.current);
            && (!Acts(r, v) ==> u.ballot.current == r.ballot.current)
            && (Acts(r, v) ==> u.ballot.current == r.ballot.current
                               || FollowsVotes(b, b.clients[v.i].id, v.state, u.ballot.current))
            && (Acts(r, v) && HwFine(hw) && !r.core.collapseBlock ==>
                  FollowsVotes(b, b.clients[v.i].id, v.state, u.ballot.current))
            && (u.needHwInit <==> r.needHwInit && (v.state == Idle || !Acts(r, v)))
  {
    hide ClkEnable, HwInitPower, Switch, Landed, FollowsVotes, HwFine;
    if Acts(r, v) {
      SwitchFollowsVotes(Voted(r.ballot, v), CoreBefore(r, v, hw), r.ballot.clients[v.i].id, v.state, v.canWait, hw);
    }
  }

  /** The footswitch is under software control from a re-initialisation until IDLE is entered. */
  lemma {:induction false} SwitchFootswitch(b: Ballot, c: Core, caller: int, state: State, canWait: bool, hw: Hw)
    ensures var s := Switch(b, c, caller, state, canWait, hw);
            && (state != Idle ==> s.core.swFs == c.swFs)
            && (s.core.swFs ==> c.swFs)
            && (s.core.swFs != c.swFs ==> s.rc == Zero && state == Idle && s.core.powerCollapse)
  {
    hide ExternalClk, Votes, ClkVote, StateUpdate;
    forall target ensures var u := StateUpdate(c, target, hw);
                          && (u.core.swFs <==> c.swFs && !(target == Idle && u.rc == Zero))
                          && (target == Idle && u.rc == Zero ==> u.core.powerCollapse)
    {
      CollapseAfterUpdate(c, target, hw);
    }
  }

  lemma {:induction false} UpdateFootswitch(r: Rsc, v: Vote, hw: Hw)
    requires v.i < |r.ballot.clients| && v.state != Idle
    ensures ClientStateUpdate(r, v, hw).core.swFs <==> r.core.swFs || (Acts(r, v) && r.needHwInit && hw.regulatorOk)
  {
    hide ClkEnable, HwInitPower, Switch, Landed;
    if Acts(r, v) {
      SwitchFootswitch(Voted(r.ballot, v), CoreBefore(r, v, hw), r.ballot.clients[v.i].id, v.state, v.canWait, hw);
    }
  }

  // ---------------------------------------------------------------- vsync waits

  /** Leaving the panel's state: in v3 for CLK, in v2 out of CMD for VID or CLK. */
  predicate LeavesPanel(b: Ballot, state: State) {
    if b.v3 then Solving(b.current) && ComesToClk(b, state)
    else b.current == Cmd && (state == Vid || (!PanelVote(b) && (state == Clk || (state == Idle && ClkVote(b.clients)))))
  }

  /** The switch ends with the vsync step: on the way to CLK, and in v2 to VID. */
  predicate EndsWithVsync(b: Ballot, state: State) {
    if b.v3 then ComesToClk(b, state)
    else (state == Vid && b.current != Vid) || (!PanelVote(b) && (state == Clk || (state == Idle && ClkVote(b.clients))))
  }

  /**
   Leaving the panel with power up, a caller that can wait is told to wait for one more vsync; any
   other switch that ends with the vsync step sits out what is pending. Nothing else changes the waits.
   */
  lemma {:induction false} SwitchWaitsIff(b: Ballot, c: Core, caller: int, state: State, canWait: bool, hw: Hw)
    ensures var s := Switch(b, c, caller, state, canWait, hw); var n := s.core.vsyncWait;
            && (n > c.vsyncWait <==> LeavesPanel(b, state) && b.primary != NoClient && canWait && PowersUp(c, hw))
            && (n > c.vsyncWait ==> n == c.vsyncWait + 1)
            && (n < c.vsyncWait ==> n == 0)
            && (n < c.vsyncWait <==>
                  && EndsWithVsync(b, state) && c.vsyncWait > 0 && hw.vsyncOk
                  && !(LeavesPanel(b, state) && b.primary != NoClient && PowersUp(c, hw)))
  {
    hide ExternalClk, Votes, ClkVote, StateUpdate;
    forall target ensures var u := StateUpdate(c, target, hw);
                          && u.core.vsyncWait == c.vsyncWait
                          && (target != Idle ==> (u.rc == Zero <==> (c.powerCollapse ==> hw.exitOk)))
    {
      CollapseAfterUpdate(c, target, hw);
    }
  }

  /** The same for a state update; a call that does not act changes no wait. */
  lemma {:induction false} UpdateWaitsIff(r: Rsc, v: Vote, hw: Hw)
    requires v.i < |r.ballot.clients|
    ensures var n := ClientStateUpdate(r, v, hw).core.vsyncWait; var b := Voted(r.ballot, v);
            && (n > r.core.vsyncWait <==>
                  Acts(r, v) && LeavesPanel(b, v.state) && b.primary != NoClient && v.canWait && PowersUp(r.core, hw))
            && (n < r.core.vsyncWait <==>
                  && Acts(r, v) && EndsWithVsync(b, v.state) && r.core.vsyncWait > 0 && hw.vsyncOk
                  && !(LeavesPanel(b, v.state) && b.primary != NoClient && PowersUp(r.core, hw)))
  {
    hide ClkEnable, HwInitPower, Switch, Landed, LeavesPanel, EndsWithVsync;
    if Acts(r, v) {
      SwitchWaitsIff(Voted(r.ballot, v), CoreBefore(r, v, hw), r.ballot.clients[v.i].id, v.state, v.canWait, hw);
    }
  }

  // ---------------------------------------------------------------- when power stays collapsed outside IDLE

  /** Power is collapsed although the state is not IDLE. */
  predicate CollapsedAwake(r: Rsc) { r.core.powerCollapse && r.ballot.current != Idle }

  /** A hardware update changes power collapse only by a good exit or a good entry. */
  lemma {:induction false} CollapseAfterUpdate(c: Core, target: State, hw: Hw)
    ensures var s := StateUpdate(c, target, hw);
            && (s.core.powerCollapse <==> (c.powerCollapse && !hw.exitOk) || (target == Idle && s.rc == Zero))
            && (target != Idle ==> (s.rc == Zero <==> !s.core.powerCollapse))
            && s.core.vsyncWait == c.vsyncWait && s.core.collapseBlock == c.collapseBlock
            && (target == Idle ==>
                  (s.rc == Zero <==> !c.collapseBlock && (c.swFs ==> hw.fastModeOk) && hw.entryFailures <= 3))
            && (s.core.swFs <==> c.swFs && !(target == Idle && s.rc == Zero))
  {
  }

  /** The exit out of collapsed power fails while a vsync wait is pending that then ends well. */
  predicate ExitMasked(c: Core, hw: Hw) {
    c.powerCollapse && !hw.exitOk && c.vsyncWait > 0 && hw.vsyncOk
  }

  /** The votes let a request for `state` come to the CLK update: directly or delegated by IDLE. */
  predicate ComesToClk(b: Ballot, state: State) {
    && (ExternalClk(b.clients) || !(Votes(b.clients, Vid) || Votes(b.clients, Cmd)))
    && (state == Clk || (state == Idle && ClkVote(b.clients)))
  }

  lemma {:induction false} ClkCollapsedIff(b: Ballot, c: Core, canWait: bool, hw: Hw)
    requires c.powerCollapse ==> !Solving(b.current)
    ensures var s := SwitchToClkV3(b, c, canWait, hw);
            s.rc == Zero && s.core.powerCollapse <==> ComesToClk(b, Clk) && ExitMasked(c, hw)
    ensures SwitchToClkV3(b, c, canWait, hw).core.powerCollapse ==> c.powerCollapse
  {
    hide ExternalClk, Votes, ClkVote, StateUpdate;
    CollapseAfterUpdate(c, Clk, hw);
  }

  lemma {:induction false} CmdVidNotCollapsed(b: Ballot, c: Core, caller: int, hw: Hw)
    requires c.powerCollapse ==> !Solving(b.current)
    ensures SwitchToCmdV3(b, c, caller, hw).rc == Zero ==> !SwitchToCmdV3(b, c, caller, hw).core.powerCollapse
    ensures SwitchToVidV3(b, c, caller, hw).rc == Zero ==> !SwitchToVidV3(b, c, caller, hw).core.powerCollapse
    ensures SwitchToCmdV3(b, c, caller, hw).core.powerCollapse ==> c.powerCollapse
    ensures SwitchToVidV3(b, c, caller, hw).core.powerCollapse ==> c.powerCollapse
  {
    hide ExternalClk, Votes;
  }

  lemma {:induction false} NeverRenamed(b: Ballot, c: Core, caller: int, canWait: bool, hw: Hw)
    ensures Plain(SwitchToCmdV3(b, c, caller, hw).rc) && Plain(SwitchToVidV3(b, c, caller, hw).rc)
    ensures Plain(SwitchToClkV3(b, c, canWait, hw).rc) && Plain(StateUpdate(c, Idle, hw).rc)
  {
    hide ExternalClk, Votes;
  }

  /** Not one of the codes by which IDLE reports a delegation. */
  predicate Plain(rc: Rc) { rc != CmdSwitched && rc != VidSwitched && rc != ClkSwitched }

  /** A switch out of a state that is IDLE whenever power is collapsed ends awake and collapsed exactly so. */
  lemma {:induction false} SwitchCollapsedIff(b: Ballot, c: Core, caller: int, state: State, canWait: bool, hw: Hw)
    requires b.v3 && (c.powerCollapse ==> b.current == Idle)
    ensures var s := Switch(b, c, caller, state, canWait, hw);
            s.core.powerCollapse && Landed(b, s, state) != Idle <==> ComesToClk(b, state) && ExitMasked(c, hw)
  {
    hide ExternalClk, Votes, ClkVote, SwitchToCmdV3, SwitchToVidV3, SwitchToClkV3, StateUpdate;
    NeverRenamed(b, c, caller, canWait, hw);
    NeverRenamed(b, c, b.primary, canWait, hw);
    ClkCollapsedIff(b, c, canWait, hw);
    CmdVidNotCollapsed(b, c, caller, hw);
    CmdVidNotCollapsed(b, c, b.primary, hw);
    CollapseAfterUpdate(c, Idle, hw);
  }

  /** What a caller can see before the call, and the two hardware answers that make it go wrong. */
  predicate MasksInUpdate(r: Rsc, v: Vote, hw: Hw)
    requires v.i < |r.ballot.clients|
  {
    !ReturnsEarly(r, v) && ComesToClk(Voted(r.ballot, v), v.state) && ExitMasked(r.core, hw)
  }

  predicate Masks(r: Rsc, e: Event) {
    match e
    case CallUpdate(v, hw) => v.i < |r.ballot.clients| && MasksInUpdate(r, v, hw)
    case CallDestroy(i, hw) =>
      i < |r.ballot.clients| && r.ballot.clients[i].state != Idle && MasksInUpdate(r, LastVote(i), hw)
    case _ => false
  }

  lemma {:induction false} UpdateCollapsedIff(r: Rsc, v: Vote, hw: Hw)
    requires r.ballot.v3 && v.i < |r.ballot.clients| && !CollapsedAwake(r)
    ensures CollapsedAwake(ClientStateUpdate(r, v, hw)) <==> MasksInUpdate(r, v, hw)
  {
    hide ClkEnable, HwInitPower, Switch, Landed, ComesToClk;
    if !ReturnsEarly(r, v) {
      var b, c := Voted(r.ballot, v), CoreBefore(r, v, hw);
      SwitchCollapsedIff(b, c, r.ballot.clients[v.i].id, v.state, v.canWait, hw);
      assert ExitMasked(c, hw) == ExitMasked(r.core, hw);
    }
  }

  lemma {:induction false} StepCollapsedIff(r: Rsc, e: Event)
    requires SafeV3(r) && !CollapsedAwake(r)
    ensures CollapsedAwake(Step(r, e)) <==> Masks(r, e)
  {
    hide ClientStateUpdate, TriggerVote, MasksInUpdate, SafeV3;
    assert r.ballot.v3 by { V3OfSafe(r); }
    match e {
      case CallUpdate(v, hw) =>
        if v.i < |r.ballot.clients| { UpdateCollapsedIff(r, v, hw); }
      case CallDestroy(i, hw) =>
        if i < |r.ballot.clients| {
          UpdateCollapsedIff(r, LastVote(i), hw);
          UpdateKeepsSafeV3(r, LastVote(i), hw);
        }
      case _ =>
    }
  }

  lemma {:induction false} V3OfSafe(r: Rsc)
    requires SafeV3(r)
    ensures r.ballot.v3
  {
  }

  /**
   "Power collapse implies IDLE" holds throughout a v3 run exactly when no call of the run masks a
   failed mode-2 exit: no call comes to the CLK update with power collapsed and a vsync wait
   pending, sees the exit fail and the wait end well.
   */
  lemma {:induction false} RunCollapsedIff(es: seq<Event>)
    ensures (forall n :: 0 <= n <= |es| ==> !CollapsedAwake(Run(Probed(true), es[..n]))) <==>
            (forall n :: 0 <= n < |es| ==> !Masks(Run(Probed(true), es[..n]), es[n]))
  {
    hide CollapsedAwake, Masks, Step;
    if forall n :: 0 <= n < |es| ==> !Masks(Run(Probed(true), es[..n]), es[n]) {
      forall n | 0 <= n <= |es| ensures !CollapsedAwake(Run(Probed(true), es[..n])) {
        PrefixNotCollapsed(es, n);
      }
    }
    if forall n :: 0 <= n <= |es| ==> !CollapsedAwake(Run(Probed(true), es[..n])) {
      forall n | 0 <= n < |es| ensures !Masks(Run(Probed(true), es[..n]), es[n]) {
        PrefixStep(es, n);
        assert !CollapsedAwake(Run(Probed(true), es[..n])) && !CollapsedAwake(Run(Probed(true), es[..n + 1]));
      }
    }
  }

  lemma {:induction false} PrefixNotCollapsed(es: seq<Event>, n: nat)
    requires n <= |es| && forall k :: 0 <= k < |es| ==> !Masks(Run(Probed(true), es[..k]), es[k])
    ensures !CollapsedAwake(Run(Probed(true), es[..n]))
  {
    if n > 0 {
      PrefixNotCollapsed(es, n - 1);
      hide Masks, Step;
      PrefixStep(es, n - 1);
    }
  }

  lemma {:induction false} PrefixStep(es: seq<Event>, n: nat)
    requires n < |es|
    ensures var r := Run(Probed(true), es[..n]);
            && Run(Probed(true), es[..n + 1]) == Step(r, es[n])
            && (!CollapsedAwake(r) ==> (CollapsedAwake(Step(r, es[n])) <==> Masks(r, es[n])))
  {
    assert es[..n + 1][..n] == es[..n];
    RunSafeV3(es[..n]);
    var r := Run(Probed(true), es[..n]);
    hide Run;
    if !CollapsedAwake(r) {
      StepCollapsedIff(r, es[n]);
    }
  }

  ghost predicate Reachable(v3: bool, r: Rsc) {
    exists es :: Run(Probed(v3), es) == r
  }

  lemma {:induction false} ReachableStep(v3: bool, r: Rsc, e: Event)
    requires Reachable(v3, r)
    ensures Reachable(v3, Step(r, e))
  {
    var es :| Run(Probed(v3), es) == r;
    assert (es + [e])[..|es|] == es;
    assert Run(Probed(v3), es + [e]) == Step(r, e);
  }

  // ---------------------------------------------------------------- v2 vote dominance

  ghost predicate OnlyPrimaryCmd(b: Ballot) {
    forall i :: 0 <= i < |b.clients| && b.clients[i].state == Cmd ==> b.clients[i].id == b.primary
  }

  /**
   Any VID voter forces VID, a CMD vote (of the primary) forces CMD or VID, and IDLE means that no
   client of the CLK type votes CLK.
   */
  ghost predicate Dominance(b: Ballot) {
    && (Votes(b.clients, Vid) ==> b.current == Vid)
    && (Votes(b.clients, Cmd) ==> Solving(b.current))
    && (b.current == Idle ==> !ClkVote(b.clients))
    && OnlyPrimaryCmd(b)
  }

  ghost predicate DominantV2(r: Rsc) {
    !r.ballot.v3 && r.bound && !r.core.collapseBlock && Dominance(r.ballot)
  }

  /** Hardware updates succeed and vsync waits end in time. */
  ghost predicate HwFine(hw: Hw) {
    hw.exitOk && hw.fastModeOk && hw.entryFailures <= MAX_MODE2_ENTRY_TRY && hw.vsyncOk
  }

  /** Only the primary, of which there is one, votes CMD; hardware answers well. */
  ghost predicate RegularV2(r: Rsc, e: Event) {
    match e
    case CallUpdate(v, hw) =>
      HwFine(hw) && (v.i < |r.ballot.clients| && v.state == Cmd ==> r.ballot.clients[v.i].id == r.ballot.primary)
    case CallCreate(kind) => kind == PrimaryDisp ==> r.ballot.primary == NoClient
    case CallDestroy(i, hw) => HwFine(hw)
    case BlockCollapse(on) => !on
    case _ => true
  }

  /** The votes just after one of them changed to `state` and before the switch for it. */
  ghost predicate ReadyV2(b: Ballot, state: State) {
    && (Votes(b.clients, Vid) ==> b.current == Vid || state == Vid)
    && (Votes(b.clients, Cmd) ==> Solving(b.current) || state == Cmd)
    && (ClkVote(b.clients) ==> b.current != Idle || state == Clk)
  }

  lemma {:induction false} VoteReadiesV2(b: Ballot, v: Vote)
    requires Dominance(b) && v.i < |b.clients| && (v.state == Cmd ==> b.clients[v.i].id == b.primary)
    ensures ReadyV2(Voted(b, v), v.state) && OnlyPrimaryCmd(Voted(b, v))
  {
    var cs, cs' := b.clients, Voted(b, v).clients;
    forall s | s != v.state ensures Votes(cs', s) ==> Votes(cs, s) {
    }
    if v.state != Clk && ClkVote(cs') {
      assert ClkVote(cs);
    }
  }

  lemma {:induction false} UpdateSucceeds(c: Core, target: State, hw: Hw)
    requires HwFine(hw) && !c.collapseBlock
    ensures StateUpdate(c, target, hw).rc == Zero && !StateUpdate(c, target, hw).core.collapseBlock
  {
  }

  lemma {:induction false} SwitchV2Dominates(b: Ballot, c: Core, caller: int, state: State, canWait: bool, hw: Hw)
    requires !b.v3 && !c.collapseBlock && HwFine(hw) && ReadyV2(b, state) && OnlyPrimaryCmd(b)
    requires state == Cmd ==> caller == b.primary && b.primary != NoClient
    ensures var s := Switch(b, c, caller, state, canWait, hw);
            Dominance(b.(current := Landed(b, s, state))) && !s.core.collapseBlock
  {
    hide ClkVote, StateUpdate, OnlyPrimaryCmd;
    forall target ensures StateUpdate(c, target, hw).rc == Zero && !StateUpdate(c, target, hw).core.collapseBlock {
      UpdateSucceeds(c, target, hw);
    }
    var b' := b.(current := Landed(b, Switch(b, c, caller, state, canWait, hw), state));
    assert OnlyPrimaryCmd(b') by { CurrentIsNotAVote(b, b'.current); }
    if Votes(b.clients, Cmd) {
      CmdMeansPrimary(b);
    }
    hide Votes;
  }

  lemma {:induction false} CurrentIsNotAVote(b: Ballot, s: State)
    requires OnlyPrimaryCmd(b)
    ensures OnlyPrimaryCmd(b.(current := s))
  {
  }

  lemma {:induction false} CmdMeansPrimary(b: Ballot)
    requires OnlyPrimaryCmd(b) && Votes(b.clients, Cmd)
    ensures b.primary != NoClient
  {
  }

  lemma {:induction false} UpdateKeepsDominance(r: Rsc, v: Vote, hw: Hw)
    requires DominantV2(r) && v.i < |r.ballot.clients| && RegularV2(r, CallUpdate(v, hw))
    ensures DominantV2(ClientStateUpdate(r, v, hw))
    ensures |ClientStateUpdate(r, v, hw).ballot.clients| == |r.ballot.clients|
  {
    hide ClkEnable, HwInitPower, Switch, Votes, ClkVote, OnlyPrimaryCmd;
    VoteReadiesV2(r.ballot, v);
    if !ReturnsEarly(r, v) {
      SwitchV2Dominates(Voted(r.ballot, v), CoreBefore(r, v, hw), r.ballot.clients[v.i].id, v.state, v.canWait, hw);
    }
  }

  lemma {:induction false} RemoveKeepsDominance(b: Ballot, i: nat)
    requires Dominance(b) && i < |b.clients|
    ensures Dominance(Remove(b, i))
  {
    var cs, cs' := b.clients, Remove(b, i).clients;
    assert forall j :: 0 <= j < |cs'| ==> cs'[j] == cs[if j < i then j else j + 1];
    assert forall s :: Votes(cs', s) ==> Votes(cs, s);
    assert ClkVote(cs') ==> ClkVote(cs);
  }

  lemma {:induction false} CreateKeepsDominance(b: Ballot, kind: Kind)
    requires Dominance(b) && (kind == PrimaryDisp ==> b.primary == NoClient)
    ensures Dominance(Create(b, kind))
  {
    var cs, cs' := b.clients, Create(b, kind).clients;
    assert forall j :: 0 < j < |cs'| ==> cs'[j] == cs[j - 1];
    assert forall s :: s != Idle && Votes(cs', s) ==> Votes(cs, s);
    assert ClkVote(cs') ==> ClkVote(cs);
  }

  lemma {:induction false} StepKeepsDominance(r: Rsc, e: Event)
    requires DominantV2(r) && RegularV2(r, e)
    ensures DominantV2(Step(r, e))
  {
    hide ClientStateUpdate, TriggerVote, Dominance;
    match e {
      case CallUpdate(v, hw) =>
        if v.i < |r.ballot.clients| { UpdateKeepsDominance(r, v, hw); }
      case CallDestroy(i, hw) =>
        if i < |r.ballot.clients| {
          UpdateKeepsDominance(r, LastVote(i), hw);
          RemoveKeepsDominance(r.ballot, i);
          RemoveKeepsDominance(ClientStateUpdate(r, LastVote(i), hw).ballot, i);
        }
      case CallCreate(kind) => CreateKeepsDominance(r.ballot, kind);
      case _ =>
    }
  }

  /** Every event of the run is regular in the state it happens in. */
  ghost predicate RegularRun(r: Rsc, es: seq<Event>) {
    forall n :: 0 <= n < |es| ==> RegularV2(Run(r, es[..n]), es[n])
  }

  /** v2 vote dominance over every run of regular events. */
  lemma {:induction false} RunDominatesV2(es: seq<Event>)
    requires RegularRun(Probed(false), es)
    ensures DominantV2(Run(Probed(false), es))
  {
    hide Step;
    if es != [] {
      var n := |es| - 1;
      assert forall k :: 0 <= k <= n ==> es[..n][..k] == es[..k];
      RunDominatesV2(es[..n]);
      StepKeepsDominance(Run(Probed(false), es[..n]), es[n]);
    }
  }

  // ---------------------------------------------------------------- the clock reference

  /** References beyond the one that a non-IDLE state holds. */
  function Excess(r: Rsc): int {
    r.power.refcount - if r.ballot.current == Idle then 0 else 1
  }

  /** The calls that return without giving back the reference they took. */
  predicate Leaks(r: Rsc, e: Event) {
    match e
    case CallUpdate(v, hw) => v.i < |r.ballot.clients| && LeaksInUpdate(r, v, hw)
    case CallTrigger(hw) => !ClkEnable(r.power, true, hw.on).ok
    case _ => false
  }

  predicate LeaksInUpdate(r: Rsc, v: Vote, hw: Hw) {
    && !ReturnsEarly(r, v) && Reinitialises(r, v) && hw.regulatorOk
    && (!hw.initOk || !ClkEnable(r.power, true, hw.initOn).ok)
  }

  lemma {:induction false} CountAfter(p: Power, enable: bool, s: Supply)
    ensures ClkEnable(p, enable, s).p.refcount == if enable then p.refcount + 1 else if p.refcount > 0 then p.refcount - 1 else 0
  {
  }

  lemma {:induction false} UpdateExcess(r: Rsc, v: Vote, hw: Hw)
    requires v.i < |r.ballot.clients| && Excess(r) >= 0
    ensures Excess(ClientStateUpdate(r, v, hw)) == Excess(r) + if LeaksInUpdate(r, v, hw) then 1 else 0
  {
    hide Outcome, Landed, HwInitPower, ClkEnable;
    HwInitBalance(r.power, hw);
    var p := if Reinitialises(r, v) then HwInitPower(r.power, hw) else r.power;
    CountAfter(p, true, hw.on);
    CountAfter(PowerBefore(r, v, hw), false, hw.off);
  }

  lemma {:induction false} StepExcess(r: Rsc, e: Event)
    requires Excess(r) >= 0
    ensures Excess(Step(r, e)) == Excess(r) + if Leaks(r, e) then 1 else 0
  {
    hide ClientStateUpdate;
    match e {
      case CallUpdate(v, hw) =>
        if v.i < |r.ballot.clients| { UpdateExcess(r, v, hw); }
      case CallDestroy(i, hw) =>
        if i < |r.ballot.clients| { UpdateExcess(r, LastVote(i), hw); }
      case _ =>
    }
  }

  function LeakCount(r: Rsc, es: seq<Event>): nat {
    if es == [] then 0
    else LeakCount(r, es[..|es| - 1]) + if Leaks(Run(r, es[..|es| - 1]), es[|es| - 1]) then 1 else 0
  }

  /**
   Between any two API calls, whatever the switch functions returned, the clock reference count is
   one for a non-IDLE state plus one for every call that leaked its reference; so it is 1 in a
   non-IDLE state and 0 in IDLE exactly in the runs in which no call leaked.
   */
  lemma {:induction false} RunRefcount(v3: bool, es: seq<Event>)
    ensures var r := Run(Probed(v3), es);
            r.power.refcount == (if r.ballot.current == Idle then 0 else 1) + LeakCount(Probed(v3), es)
  {
    hide Step, Leaks;
    if es != [] {
      RunRefcount(v3, es[..|es| - 1]);
      StepExcess(Run(Probed(v3), es[..|es| - 1]), es[|es| - 1]);
    }
  }

  /** One vote trigger whose clocks do not come up: the state stays IDLE and a reference is left. */
  lemma {:induction false} LeakReachable(v3: bool)
    ensures exists es :: LeakCount(Probed(v3), es) == 1 &&
              Run(Probed(v3), es).ballot.current == Idle && Run(Probed(v3), es).power.refcount == 1
  {
    var p := Probed(v3);
    var e := CallTrigger(ExHw.(on := Supply(false, false)));
    assert [e][..0] == [] && Run(p, []) == p && LeakCount(p, []) == 0;
    assert Run(p, [e]) == Step(p, e);
    assert LeakCount(p, [e]) == 1;
  }

  /** A re-initialisation gives back its reference unless it fails after taking it. */
  lemma {:induction false} HwInitBalance(p: Power, hw: Hw)
    ensures HwInitPower(p, hw).refcount ==
            p.refcount + if hw.regulatorOk && (!hw.initOk || !ClkEnable(p, true, hw.initOn).ok) then 1 else 0
  {
  }

  ghost predicate SupplyFine(s: Supply) { s.vregOk && s.clkOk }

  /** Regulator and clock calls succeed. */
  ghost predicate SuppliesFine(e: Event) {
    (e.CallUpdate? || e.CallTrigger? || e.CallDestroy?) ==>
      SupplyFine(e.hw.on) && SupplyFine(e.hw.off) && SupplyFine(e.hw.initOn) && SupplyFine(e.hw.initOff)
  }

  ghost predicate ClocksMatch(p: Power) {
    p.usecaseOn == (p.refcount > 0) && p.clocksOn == (p.refcount > 0)
  }

  lemma {:induction false} ClkEnableMatches(p: Power, enable: bool, s: Supply)
    requires ClocksMatch(p) && SupplyFine(s)
    ensures ClocksMatch(ClkEnable(p, enable, s).p) && ClkEnable(p, enable, s).ok
  {
  }

  /** An enable and a disable restore the count whatever the supplies answer, and everything if they succeed. */
  lemma {:induction false} ClkRoundTrip(p: Power, up: Supply, down: Supply)
    ensures ClkEnable(ClkEnable(p, true, up).p, false, down).p.refcount == p.refcount
    ensures ClocksMatch(p) && SupplyFine(up) && SupplyFine(down) ==>
              ClkEnable(ClkEnable(p, true, up).p, false, down).p == p
  {
  }

  /** From matching clocks: a call fails only on the first or the last reference, and only there do clocks change. */
  lemma {:induction false} ClkEdges(p: Power, enable: bool, s: Supply)
    requires ClocksMatch(p)
    ensures var r := ClkEnable(p, enable, s); var edge := if enable then p.refcount == 0 else p.refcount == 1;
            && (!r.ok <==> edge && (!s.vregOk || (enable && !s.clkOk)))
            && (r.p.clocksOn != p.clocksOn <==> edge && (enable ==> SupplyFine(s)))
  {
  }

  lemma {:induction false} UpdateClocksMatch(r: Rsc, v: Vote, hw: Hw)
    requires ClocksMatch(r.power) && v.i < |r.ballot.clients| && SuppliesFine(CallUpdate(v, hw))
    ensures ClocksMatch(ClientStateUpdate(r, v, hw).power)
  {
    hide ClkEnable, ClocksMatch, Outcome;
    forall p, enable, s | ClocksMatch(p) && SupplyFine(s) ensures ClocksMatch(ClkEnable(p, enable, s).p) {
      ClkEnableMatches(p, enable, s);
    }
  }

  /** With regulator and clock calls succeeding, the clocks are on exactly when the count is positive. */
  lemma {:induction false} RunClocks(v3: bool, es: seq<Event>)
    requires forall n :: 0 <= n < |es| ==> SuppliesFine(es[n])
    ensures ClocksMatch(Run(Probed(v3), es).power)
  {
    hide ClientStateUpdate, ClkEnable, ClocksMatch;
    if es == [] {
      assert ClocksMatch(Probed(v3).power) by { StartMatches(); }
    } else {
      var n := |es| - 1;
      RunClocks(v3, es[..n]);
      var r, e := Run(Probed(v3), es[..n]), es[n];
      match e {
        case CallUpdate(v, hw) =>
          if v.i < |r.ballot.clients| { UpdateClocksMatch(r, v, hw); }
        case CallTrigger(hw) =>
          ClkEnableMatches(r.power, true, hw.on);
          ClkEnableMatches(ClkEnable(r.power, true, hw.on).p, false, hw.off);
        case CallDestroy(i, hw) =>
          if i < |r.ballot.clients| { UpdateClocksMatch(r, LastVote(i), hw); }
        case _ =>
      }
    }
  }

  lemma {:induction false} StartMatches()
    ensures ClocksMatch(Power(0, false, false))
  {
  }
}
